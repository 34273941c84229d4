/** Disputes: listing them, reading one, and answering one with a message. */
module DisputeActions {
  import opened Wrappers
  import opened Models
  import opened Store
  import opened Text
  import Seqs

  /** Who may read a dispute: the buyer or the seller of its transaction, or whoever raised it. */
  predicate InvolvedIn(d: Dispute, t: Transaction, u: UserId)
  {
    IsParticipant(t, u) || d.raisedBy == u
  }

  function RaisedBy(u: UserId): Dispute -> bool
  {
    (d: Dispute) => d.raisedBy == u
  }

  /** `getDisputes`: the disputes the caller raised, in stored order. The query also names
      `transaction.buyer.userId` and `transaction.seller.userId`, but dispute records have no
      `transaction` field, so only `raisedBy` can match. */
  function GetDisputes(ds: seq<Dispute>, caller: Option<Session>): (r: Result<seq<Dispute>>)
    ensures caller.None? ==> r == Err(NotLoggedIn)
    ensures caller.Some? ==> r.Ok? && |r.value| <= |ds|
    ensures r.Ok? ==> forall d :: d in r.value <==> d in ds && d.raisedBy == caller.value.userId
    ensures r.Ok? ==> forall d :: multiset(r.value)[d] == if d.raisedBy == caller.value.userId then multiset(ds)[d] else 0
    ensures r.Ok? ==> r.value == Seqs.Filter(ds, RaisedBy(caller.value.userId))
  {
    if caller.None? then Err(NotLoggedIn)
    else
      Seqs.FilterMultiplicity(ds, RaisedBy(caller.value.userId));
      Ok(Seqs.Filter(ds, RaisedBy(caller.value.userId)))
  }

  /** The disputes the query of `getDisputes` is meant to find for user `u`: those `u` raised,
      and those about a transaction `u` buys or sells in. */
  function Involving(txs: seq<Transaction>, u: UserId): Dispute -> bool
  {
    (d: Dispute) => d.raisedBy == u || (d.transactionId < |txs| && IsParticipant(txs[d.transactionId], u))
  }

  /** `getDisputes` as intended: the disputes the caller raised or whose transaction the caller
      takes part in, in stored order. */
  function GetDisputesInvolving(ds: seq<Dispute>, txs: seq<Transaction>, caller: Option<Session>)
    : (r: Result<seq<Dispute>>)
    ensures caller.None? ==> r == Err(NotLoggedIn)
    ensures caller.Some? ==> r.Ok? && |r.value| <= |ds|
    ensures r.Ok? ==> forall d :: d in r.value <==>
              d in ds && (d.raisedBy == caller.value.userId
                          || (d.transactionId < |txs| && IsParticipant(txs[d.transactionId], caller.value.userId)))
    ensures r.Ok? ==>
              forall d :: multiset(r.value)[d] == if Involving(txs, caller.value.userId)(d) then multiset(ds)[d] else 0
    ensures r.Ok? ==> r.value == Seqs.Filter(ds, Involving(txs, caller.value.userId))
  {
    if caller.None? then Err(NotLoggedIn)
    else
      Seqs.FilterMultiplicity(ds, Involving(txs, caller.value.userId));
      Ok(Seqs.Filter(ds, Involving(txs, caller.value.userId)))
  }

  /** The intended listing loses nothing the query as written returns, and it adds exactly the
      disputes raised by someone else about the caller's own transactions. */
  lemma InvolvingExtendsRaised(ds: seq<Dispute>, txs: seq<Transaction>, caller: Session)
    ensures forall d :: d in GetDisputes(ds, Some(caller)).value ==> d in GetDisputesInvolving(ds, txs, Some(caller)).value
    ensures forall d :: d in GetDisputesInvolving(ds, txs, Some(caller)).value && d !in GetDisputes(ds, Some(caller)).value ==>
              d.raisedBy != caller.userId && d.transactionId < |txs| && IsParticipant(txs[d.transactionId], caller.userId)
  {
  }

  /** The seller of a transaction its buyer disputes does not find the dispute in the list. */
  lemma CounterpartyMissesDispute()
    ensures var t := Transaction("Bike", "A used bike", 100.0, "USD", Disputed, Party(1, "a@x", "A"),
                                 Party(2, "b@x", "B"), true, PaymentMethod(Card, ""), Some("e"), 0, 0, None, []);
            var d := Dispute(0, 1, None, "Not as described", Open, None, 0, None);
            var seller := Session(2, "b@x", "B", Seller);
            && GetDisputes([d], Some(seller)) == Ok([])
            && GetDisputesInvolving([d], [t], Some(seller)) == Ok([d])
  {
    var t := Transaction("Bike", "A used bike", 100.0, "USD", Disputed, Party(1, "a@x", "A"),
                         Party(2, "b@x", "B"), true, PaymentMethod(Card, ""), Some("e"), 0, 0, None, []);
    var d := Dispute(0, 1, None, "Not as described", Open, None, 0, None);
    assert [d][1..] == [];
    assert !RaisedBy(2)(d) && Involving([t], 2)(d);
    assert Seqs.Filter([d], RaisedBy(2)) == [];
    assert Seqs.Filter([d], Involving([t], 2)) == [d];
  }

  /** `getDisputeById`: the dispute and its transaction, for a caller involved in it. */
  function GetDisputeById(ds: seq<Dispute>, txs: seq<Transaction>, caller: Option<Session>, id: DisputeId)
    : (r: Result<(Dispute, Transaction)>)
    ensures caller.None? ==> r == Err(NotLoggedIn)
    ensures caller.Some? && id >= |ds| ==> r == Err("Dispute not found")
    ensures caller.Some? && id < |ds| && ds[id].transactionId >= |txs| ==> r == Err("Associated transaction not found")
    ensures caller.Some? && id < |ds| && ds[id].transactionId < |txs|
            && !InvolvedIn(ds[id], txs[ds[id].transactionId], caller.value.userId) ==>
              r == Err("You don't have access to this dispute")
    ensures r.Ok? <==>
              && caller.Some? && id < |ds| && ds[id].transactionId < |txs|
              && InvolvedIn(ds[id], txs[ds[id].transactionId], caller.value.userId)
    ensures r.Ok? ==> r.value.0 == ds[id] && r.value.1 == txs[ds[id].transactionId]
  {
    if caller.None? then Err(NotLoggedIn)
    else if id >= |ds| then Err("Dispute not found")
    else if ds[id].transactionId >= |txs| then Err("Associated transaction not found")
    else
      var t := txs[ds[id].transactionId];
      if !InvolvedIn(ds[id], t, caller.value.userId) then Err("You don't have access to this dispute")
      else Ok((ds[id], t))
  }

  /** Whom `respondToDispute` notifies: the raiser, unless the responder raised the dispute;
      then its respondent, or nobody when there is none. */
  function NotifiedParty(d: Dispute, responder: UserId): (r: Option<UserId>)
    ensures responder != d.raisedBy ==> r == Some(d.raisedBy)
    ensures responder == d.raisedBy ==> r == d.respondentId
    ensures r != Some(responder) || d.respondentId == Some(responder)
  {
    if d.raisedBy == responder then d.respondentId else Some(d.raisedBy)
  }

  /** The message a response to dispute `d` becomes: unread, and marked as a dispute message. */
  function ResponseMessage(d: Dispute, caller: Session, response: string, now: Time): (m: Message)
    ensures m.transactionId == d.transactionId && m.sender == caller.userId
    ensures m.isDisputeMessage && !m.isRead
  {
    Message(d.transactionId, caller.userId, caller.name, response, now, false, true)
  }

  /** `respondToDispute` as written: a non-blank response to an existing dispute is appended to
      the messages of the dispute's transaction. Nothing checks that the caller is involved in
      the dispute. */
  method RespondToDispute(db: Database, caller: Option<Session>, id: DisputeId, response: string, now: Time)
    returns (r: Outcome)
    requires db.Valid()
    modifies db`messages
    ensures db.Valid()
    ensures caller.None? ==> r == Failure(NotLoggedIn)
    ensures caller.Some? && IsBlank(response) ==> r == Failure("Response cannot be empty")
    ensures caller.Some? && !IsBlank(response) && id >= |db.disputes| ==> r == Failure("Dispute not found")
    ensures r == Success <==> caller.Some? && !IsBlank(response) && id < |db.disputes|
    ensures r.Failure? ==> db.messages == old(db.messages)
    ensures r == Success ==>
              db.messages == old(db.messages) + [ResponseMessage(db.disputes[id], caller.value, response, now)]
  {
    if caller.None? {
      return Failure(NotLoggedIn);
    }
    if IsBlank(response) {
      return Failure("Response cannot be empty");
    }
    if id >= |db.disputes| {
      return Failure("Dispute not found");
    }
    db.messages := db.messages + [ResponseMessage(db.disputes[id], caller.value, response, now)];
    return Success;
  }

  /** Any signed-in user can answer any dispute: a caller who is neither a party to the
      transaction nor the raiser gets a success, and the message lands in a transaction the
      caller cannot otherwise read. */
  method OutsiderCanRespond(db: Database, outsider: Session, id: DisputeId, response: string, now: Time)
    returns (r: Outcome)
    requires db.Valid()
    requires id < |db.disputes| && !IsBlank(response)
    requires !InvolvedIn(db.disputes[id], db.transactions[db.disputes[id].transactionId], outsider.userId)
    modifies db`messages
    ensures db.Valid()
    ensures r == Success && |db.messages| == |old(db.messages)| + 1
    ensures db.messages == old(db.messages) + [ResponseMessage(db.disputes[id], outsider, response, now)]
    ensures var m := db.messages[|old(db.messages)|];
              m.sender == outsider.userId && !IsParticipant(db.transactions[m.transactionId], outsider.userId)
  {
    r := RespondToDispute(db, Some(outsider), id, response, now);
  }

  /** `respondToDispute` with the access rule of `getDisputeById` applied after the dispute is
      found: only the parties to its transaction and its raiser can answer it. */
  method RespondToDisputeChecked(db: Database, caller: Option<Session>, id: DisputeId, response: string, now: Time)
    returns (r: Outcome)
    requires db.Valid()
    modifies db`messages
    ensures db.Valid()
    ensures caller.None? ==> r == Failure(NotLoggedIn)
    ensures caller.Some? && IsBlank(response) ==> r == Failure("Response cannot be empty")
    ensures caller.Some? && !IsBlank(response) && id >= |db.disputes| ==> r == Failure("Dispute not found")
    ensures caller.Some? && !IsBlank(response) && id < |db.disputes|
            && !InvolvedIn(db.disputes[id], db.transactions[db.disputes[id].transactionId], caller.value.userId) ==>
              r == Failure("You don't have access to this dispute")
    ensures r == Success <==>
              && caller.Some? && !IsBlank(response) && id < |db.disputes|
              && InvolvedIn(db.disputes[id], db.transactions[db.disputes[id].transactionId], caller.value.userId)
    ensures r.Failure? ==> db.messages == old(db.messages)
    ensures r == Success ==>
              db.messages == old(db.messages) + [ResponseMessage(db.disputes[id], caller.value, response, now)]
  {
    if caller.None? {
      return Failure(NotLoggedIn);
    }
    if IsBlank(response) {
      return Failure("Response cannot be empty");
    }
    if id >= |db.disputes| {
      return Failure("Dispute not found");
    }
    var d := db.disputes[id];
    if !InvolvedIn(d, db.transactions[d.transactionId], caller.value.userId) {
      return Failure("You don't have access to this dispute");
    }
    db.messages := db.messages + [ResponseMessage(d, caller.value, response, now)];
    return Success;
  }
}
