/** Reviews after a completed transaction, and the trust score they determine. */
module ReviewActions {
  import opened Wrappers
  import opened Models
  import opened Store
  import Seqs

  /** The sum of the ratings: the first plus the sum of the rest. `reduce` adds from the left
      instead, which gives the same sum. */
  function SumOfRatings(rs: seq<Review>): real
  {
    if rs == [] then 0.0 else rs[0].rating + SumOfRatings(rs[1..])
  }

  /** Ratings between `lo` and `hi` add up to between `|rs| * lo` and `|rs| * hi`. */
  lemma {:induction false} SumOfRatingsBounds(rs: seq<Review>)
    requires forall r :: r in rs ==> 1.0 <= r.rating <= 5.0
    ensures |rs| as real <= SumOfRatings(rs) <= 5.0 * |rs| as real
  {
    if rs != [] {
      assert forall r :: r in rs[1..] ==> r in rs;
      SumOfRatingsBounds(rs[1..]);
    }
  }

  /** The arithmetic mean of the ratings. */
  function MeanRating(rs: seq<Review>): real
    requires |rs| > 0
  {
    SumOfRatings(rs) / |rs| as real
  }

  /** The mean of ratings on the 1-to-5 scale is on that scale too. */
  lemma MeanRatingInScale(rs: seq<Review>)
    requires |rs| > 0
    requires forall r :: r in rs ==> 1.0 <= r.rating <= 5.0
    ensures 1.0 <= MeanRating(rs) <= 5.0
  {
    SumOfRatingsBounds(rs);
    DivideWithin(SumOfRatings(rs), |rs| as real, 1.0, 5.0);
  }

  /** A quotient by a positive number lies between `lo` and `hi` when the dividend lies between
      that number times `lo` and times `hi`. */
  lemma DivideWithin(x: real, n: real, lo: real, hi: real)
    requires n > 0.0 && lo * n <= x <= hi * n
    ensures lo <= x / n <= hi
  {
    var m := x / n;
    assert m * n == x;
    assert (m - lo) * n == x - lo * n;
    assert (hi - m) * n == hi * n - x;
  }

  function About(u: UserId): Review -> bool
  {
    (r: Review) => r.revieweeId == u
  }

  /** All reviews of user `u`, in stored order. */
  function ReviewsOf(rs: seq<Review>, u: UserId): (r: seq<Review>)
    ensures forall x :: x in r <==> x in rs && x.revieweeId == u
  {
    Seqs.Filter(rs, About(u))
  }

  /** Transaction `id` is completed and `u` is its buyer or seller. */
  predicate CompletedWith(txs: seq<Transaction>, id: TxId, u: UserId)
  {
    id < |txs| && txs[id].status == Completed && IsParticipant(txs[id], u)
  }

  /** Appending a review that passed the checks keeps the reviews well formed. */
  lemma AppendReviewKeepsWellFormed(rs: seq<Review>, txs: seq<Transaction>, review: Review)
    requires ReviewsWellFormed(rs, txs)
    requires 1.0 <= review.rating <= 5.0
    requires CompletedWith(txs, review.transactionId, review.reviewerId)
    requires IsParticipant(txs[review.transactionId], review.revieweeId)
    requires !HasReviewed(rs, review.transactionId, review.reviewerId)
    ensures ReviewsWellFormed(rs + [review], txs)
  {
    var rs' := rs + [review];
    forall k, l | 0 <= k < l < |rs'|
      ensures rs'[k].transactionId != rs'[l].transactionId || rs'[k].reviewerId != rs'[l].reviewerId
    {
      if l == |rs| {
        assert rs'[k] == rs[k];
      } else {
        assert rs'[k] == rs[k] && rs'[l] == rs[l];
      }
    }
  }

  /** The trust score a review leaves its reviewee with is on the rating scale. */
  lemma TrustScoreInScale(rs: seq<Review>, txs: seq<Transaction>, u: UserId)
    requires ReviewsWellFormed(rs, txs)
    requires exists k :: 0 <= k < |rs| && rs[k].revieweeId == u
    ensures |ReviewsOf(rs, u)| > 0 && 1.0 <= MeanRating(ReviewsOf(rs, u)) <= 5.0
  {
    var k :| 0 <= k < |rs| && rs[k].revieweeId == u;
    assert rs[k] in ReviewsOf(rs, u);
    forall x | x in ReviewsOf(rs, u) ensures 1.0 <= x.rating <= 5.0 {
      var j :| 0 <= j < |rs| && rs[j] == x;
    }
    MeanRatingInScale(ReviewsOf(rs, u));
  }

  /** The `$set: { trustScore }` after a review: the reviewee's score becomes the mean of the
      ratings it has received, and no other user changes. A reviewee with no stored record
      matches nothing. */
  function Rescored(users: map<UserId, User>, rs: seq<Review>, u: UserId): (r: map<UserId, User>)
    requires |ReviewsOf(rs, u)| > 0
    ensures r.Keys == users.Keys
    ensures forall v :: v in users && v != u ==> r[v] == users[v]
  {
    if u in users then users[u := users[u].(trustScore := MeanRating(ReviewsOf(rs, u)))] else users
  }

  /** `u` has reviewed transaction `id` already. */
  predicate HasReviewed(rs: seq<Review>, id: TxId, u: UserId)
  {
    exists k :: 0 <= k < |rs| && rs[k].transactionId == id && rs[k].reviewerId == u
  }

  /** The writes of `submitReview` once its checks have passed: the review is appended and its
      reviewee's trust score recomputed. */
  method StoreReview(db: Database, review: Review)
    requires db.Valid()
    requires 1.0 <= review.rating <= 5.0
    requires CompletedWith(db.transactions, review.transactionId, review.reviewerId)
    requires IsParticipant(db.transactions[review.transactionId], review.revieweeId)
    requires !HasReviewed(db.reviews, review.transactionId, review.reviewerId)
    modifies db`reviews, db`users
    ensures db.Valid()
    ensures db.reviews == old(db.reviews) + [review]
    ensures |ReviewsOf(db.reviews, review.revieweeId)| > 0
    ensures db.users == Rescored(old(db.users), db.reviews, review.revieweeId)
  {
    AppendReviewKeepsWellFormed(db.reviews, db.transactions, review);
    db.reviews := db.reviews + [review];
    assert db.reviews[|db.reviews| - 1].revieweeId == review.revieweeId;
    Rescore(db, review.revieweeId);
  }

  /** The `$set: { trustScore }` write: user `u`, who has been reviewed at least once, gets the
      mean of its ratings as its trust score. */
  method Rescore(db: Database, u: UserId)
    requires db.Valid()
    requires exists k :: 0 <= k < |db.reviews| && db.reviews[k].revieweeId == u
    modifies db`users
    ensures db.Valid()
    ensures |ReviewsOf(db.reviews, u)| > 0
    ensures db.users == Rescored(old(db.users), db.reviews, u)
  {
    TrustScoreInScale(db.reviews, db.transactions, u);
    if u in db.users {
      var reviewee := db.users[u].(trustScore := MeanRating(ReviewsOf(db.reviews, u)));
      ReplaceUserKeepsUsersValid(db.users, u, reviewee);
      db.users := db.users[u := reviewee];
    }
  }

  /** `submitReview`: checks, in this order, that the rating is on the 1-to-5 scale, that the
      transaction is completed and the caller took part in it, that the caller has not reviewed
      it yet and that the reviewee took part in it (the caller may name itself). The review is
      stored, and the reviewee's trust score becomes the mean of all the ratings it has received,
      which keeps it on the same scale. */
  method SubmitReview(db: Database, caller: Option<Session>, id: TxId, revieweeId: UserId, rating: real,
                      comment: string, now: Time)
    returns (r: Outcome)
    requires db.Valid()
    modifies db`reviews, db`users
    ensures db.Valid()
    ensures caller.None? ==> r == Failure(NotLoggedIn)
    ensures caller.Some? && (rating < 1.0 || rating > 5.0) ==> r == Failure("Rating must be between 1 and 5")
    ensures caller.Some? && 1.0 <= rating <= 5.0
            && !CompletedWith(db.transactions, id, caller.value.userId) ==>
              r == Failure("Transaction not found or not completed")
    ensures caller.Some? && 1.0 <= rating <= 5.0
            && CompletedWith(db.transactions, id, caller.value.userId)
            && HasReviewed(old(db.reviews), id, caller.value.userId) ==>
              r == Failure("You have already reviewed this transaction")
    ensures caller.Some? && 1.0 <= rating <= 5.0
            && CompletedWith(db.transactions, id, caller.value.userId)
            && !HasReviewed(old(db.reviews), id, caller.value.userId)
            && !IsParticipant(db.transactions[id], revieweeId) ==>
              r == Failure("Reviewee is not part of this transaction")
    ensures r == Success <==>
              && caller.Some? && 1.0 <= rating <= 5.0
              && CompletedWith(db.transactions, id, caller.value.userId)
              && !HasReviewed(old(db.reviews), id, caller.value.userId)
              && IsParticipant(db.transactions[id], revieweeId)
    ensures r.Failure? ==> db.reviews == old(db.reviews) && db.users == old(db.users)
    ensures r == Success ==>
              && db.reviews == old(db.reviews) + [Review(id, caller.value.userId, revieweeId, rating, comment, now)]
              && |ReviewsOf(db.reviews, revieweeId)| > 0
              && db.users == Rescored(old(db.users), db.reviews, revieweeId)
  {
    if caller.None? {
      return Failure(NotLoggedIn);
    }
    if rating < 1.0 || rating > 5.0 {
      return Failure("Rating must be between 1 and 5");
    }
    var u := caller.value.userId;
    if !CompletedWith(db.transactions, id, u) {
      return Failure("Transaction not found or not completed");
    }
    if HasReviewed(db.reviews, id, u) {
      return Failure("You have already reviewed this transaction");
    }
    var t := db.transactions[id];
    if !IsParticipant(t, revieweeId) {
      return Failure("Reviewee is not part of this transaction");
    }
    StoreReview(db, Review(id, u, revieweeId, rating, comment, now));
    return Success;
  }
}
