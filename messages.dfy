/** The messages exchanged about a transaction: sending, reading, marking read, and the unread count. */
module MessageActions {
  import opened Wrappers
  import opened Models
  import opened Store
  import opened Text
  import Seqs

  const EmptyMessage := "Message cannot be empty"
  const NotFoundOrDenied := "Transaction not found or access denied"

  /** The lookup both `getMessages` and `sendMessage` start with: transaction `id` exists and
      `u` is its buyer or its seller. */
  predicate CanAccess(txs: seq<Transaction>, id: TxId, u: UserId)
  {
    id < |txs| && IsParticipant(txs[id], u)
  }

  function InTransaction(id: TxId): Message -> bool
  {
    (m: Message) => m.transactionId == id
  }

  /** The sort key of `sort({ timestamp: 1 })`. */
  function Chronological(m: Message): int
  {
    m.timestamp as int
  }

  /** `getMessages`: the messages of a transaction the caller takes part in, oldest first. */
  function GetMessages(txs: seq<Transaction>, ms: seq<Message>, caller: Option<Session>, id: TxId)
    : (r: Result<seq<Message>>)
    ensures caller.None? ==> r == Err(NotLoggedIn)
    ensures caller.Some? && !CanAccess(txs, id, caller.value.userId) ==> r == Err(NotFoundOrDenied)
    ensures r.Ok? <==> caller.Some? && CanAccess(txs, id, caller.value.userId)
    ensures r.Ok? ==> multiset(r.value) == multiset(Seqs.Filter(ms, InTransaction(id)))
    ensures r.Ok? ==> forall m :: m in r.value <==> m in ms && m.transactionId == id
    ensures r.Ok? ==> forall i, j :: 0 <= i < j < |r.value| ==> r.value[i].timestamp <= r.value[j].timestamp
  {
    if caller.None? then Err(NotLoggedIn)
    else if !CanAccess(txs, id, caller.value.userId) then Err(NotFoundOrDenied)
    else
      var mine := Seqs.Filter(ms, InTransaction(id));
      Seqs.SortByMembers(mine, Chronological);
      Ok(Seqs.SortBy(mine, Chronological))
  }

  /** The messages `countDocuments` matches for user `u`: not sent by `u`, and not read. */
  function UnreadFor(u: UserId): Message -> bool
  {
    (m: Message) => m.sender != u && !m.isRead
  }

  /** `getUnreadMessages` as written: every unread message in the collection that the caller did
      not send, whichever transaction it belongs to. */
  function GetUnreadMessages(ms: seq<Message>, caller: Option<Session>): (r: Result<nat>)
    ensures caller.None? ==> r == Err(NotLoggedIn)
    ensures caller.Some? ==> r.Ok? && r.value <= |ms|
    ensures r.Ok? ==> r.value == |set k | 0 <= k < |ms| && ms[k].sender != caller.value.userId && !ms[k].isRead|
    ensures r.Ok? ==> (r.value == 0 <==> forall m :: m in ms ==> m.sender == caller.value.userId || m.isRead)
  {
    if caller.None? then Err(NotLoggedIn)
    else
      var u := caller.value.userId;
      Seqs.CountZeroIff(ms, UnreadFor(u));
      Seqs.CountIsPositions(ms, UnreadFor(u));
      assert Seqs.Positions(ms, UnreadFor(u)) == set k | 0 <= k < |ms| && ms[k].sender != u && !ms[k].isRead;
      Ok(Seqs.Count(ms, UnreadFor(u)))
  }

  /** A user who takes part in no transaction at all still sees the unread messages two other
      users exchanged: user 3 is counted the message user 1 sent user 2. */
  lemma UnreadCountIncludesStrangers()
    ensures var t := Transaction("Bike", "A used bike", 100.0, "USD", Active, Party(1, "a@x", "A"),
                                 Party(2, "b@x", "B"), true, PaymentMethod(Card, ""), Some("e"), 0, 0, None, []);
            var m := Message(0, 1, "A", "Hello", 0, false, false);
            && !IsParticipant(t, 3)
            && GetUnreadMessages([m], Some(Session(3, "c@x", "C", Buyer))) == Ok(1)
  {
    var m := Message(0, 1, "A", "Hello", 0, false, false);
    assert [m][1..] == [];
  }

  /** The messages addressed to user `u`: unread, sent by someone else, in a transaction whose
      buyer or seller is `u`. */
  function UnreadIn(txs: seq<Transaction>, u: UserId): Message -> bool
  {
    (m: Message) => m.sender != u && !m.isRead && CanAccess(txs, m.transactionId, u)
  }

  /** `getUnreadMessages` restricted to the caller's own transactions. */
  function GetUnreadMessagesOwn(txs: seq<Transaction>, ms: seq<Message>, caller: Option<Session>): (r: Result<nat>)
    ensures caller.None? ==> r == Err(NotLoggedIn)
    ensures caller.Some? ==> r.Ok? && r.value <= |ms|
    ensures r.Ok? ==>
              r.value == |set k | 0 <= k < |ms| && ms[k].sender != caller.value.userId && !ms[k].isRead
                                  && CanAccess(txs, ms[k].transactionId, caller.value.userId)|
    ensures r.Ok? ==>
              (r.value == 0 <==>
                 forall m :: m in ms && CanAccess(txs, m.transactionId, caller.value.userId) ==>
                   m.sender == caller.value.userId || m.isRead)
  {
    if caller.None? then Err(NotLoggedIn)
    else
      var u := caller.value.userId;
      Seqs.CountZeroIff(ms, UnreadIn(txs, u));
      Seqs.CountIsPositions(ms, UnreadIn(txs, u));
      assert Seqs.Positions(ms, UnreadIn(txs, u)) ==
             set k | 0 <= k < |ms| && ms[k].sender != u && !ms[k].isRead && CanAccess(txs, ms[k].transactionId, u);
      Ok(Seqs.Count(ms, UnreadIn(txs, u)))
  }

  /** The restricted count ignores a message in a transaction the user takes no part in, and
      counts one addressed to the user exactly as the unrestricted count does. */
  lemma OwnCountIgnoresStrangers(txs: seq<Transaction>, ms: seq<Message>, m: Message, s: Session)
    ensures !CanAccess(txs, m.transactionId, s.userId) ==>
              GetUnreadMessagesOwn(txs, ms + [m], Some(s)) == GetUnreadMessagesOwn(txs, ms, Some(s))
    ensures CanAccess(txs, m.transactionId, s.userId) ==>
              GetUnreadMessagesOwn(txs, ms + [m], Some(s)).value - GetUnreadMessagesOwn(txs, ms, Some(s)).value ==
              GetUnreadMessages(ms + [m], Some(s)).value - GetUnreadMessages(ms, Some(s)).value
  {
    AppendCount(ms, m, UnreadIn(txs, s.userId));
    AppendCount(ms, m, UnreadFor(s.userId));
  }

  /** Appending one element raises a count by one when the element is counted, and else not at all. */
  lemma AppendCount(ms: seq<Message>, m: Message, p: Message -> bool)
    ensures Seqs.Count(ms + [m], p) == Seqs.Count(ms, p) + (if p(m) then 1 else 0)
  {
    Seqs.FilterConcat(ms, [m], p);
    assert [m][1..] == [];
  }

  /** Whom the new-message notification goes to: the seller when the sender is the buyer, the
      buyer otherwise. It is a party to the transaction, and not the sender unless the sender
      is both buyer and seller. */
  function Recipient(t: Transaction, sender: UserId): (r: UserId)
    ensures IsParticipant(t, r)
    ensures IsParticipant(t, sender) && t.buyer.userId != t.seller.userId ==> r != sender
    ensures t.buyer.userId == sender ==> r == t.seller.userId
  {
    if t.buyer.userId == sender then t.seller.userId else t.buyer.userId
  }

  /** `sendMessage`: a non-blank message from a party to the transaction is appended unread;
      `notified` is the party the notification is addressed to. */
  method SendMessage(db: Database, caller: Option<Session>, id: TxId, content: string, now: Time)
    returns (r: Outcome, notified: Option<UserId>)
    requires db.Valid()
    modifies db`messages
    ensures db.Valid()
    ensures caller.None? ==> r == Failure(NotLoggedIn)
    ensures caller.Some? && IsBlank(content) ==> r == Failure(EmptyMessage)
    ensures caller.Some? && !IsBlank(content) && !CanAccess(db.transactions, id, caller.value.userId) ==>
              r == Failure(NotFoundOrDenied)
    ensures r == Success <==> caller.Some? && !IsBlank(content) && CanAccess(db.transactions, id, caller.value.userId)
    ensures r.Failure? ==> db.messages == old(db.messages) && notified.None?
    ensures r == Success ==>
              var u := caller.value;
              && db.messages == old(db.messages) + [Message(id, u.userId, u.name, content, now, false, false)]
              && notified == Some(Recipient(db.transactions[id], u.userId))
  {
    notified := None;
    if caller.None? {
      return Failure(NotLoggedIn), notified;
    }
    if IsBlank(content) {
      return Failure(EmptyMessage), notified;
    }
    var u := caller.value;
    if !CanAccess(db.transactions, id, u.userId) {
      return Failure(NotFoundOrDenied), notified;
    }
    db.messages := db.messages + [Message(id, u.userId, u.name, content, now, false, false)];
    return Success, Some(Recipient(db.transactions[id], u.userId));
  }

  /** The `updateOne` of `markMessageAsRead`: message `id` becomes read when `u` did not send
      it; an unknown id or the user's own message matches nothing. */
  function MarkedRead(ms: seq<Message>, id: MessageId, u: UserId): (r: seq<Message>)
    ensures |r| == |ms|
    ensures forall k :: 0 <= k < |ms| && k != id ==> r[k] == ms[k]
    ensures id < |ms| ==> r[id].isRead == (ms[id].isRead || ms[id].sender != u)
    ensures id < |ms| ==> r[id] == ms[id].(isRead := r[id].isRead)
  {
    if id < |ms| && ms[id].sender != u then ms[id := ms[id].(isRead := true)] else ms
  }

  /** Marking a message read twice is marking it once. */
  lemma MarkedReadIdempotent(ms: seq<Message>, id: MessageId, u: UserId)
    ensures MarkedRead(MarkedRead(ms, id, u), id, u) == MarkedRead(ms, id, u)
  {
  }

  /** Marking a message read lowers its reader's unread count by one when the message was unread
      for that reader, and never raises anyone's count. */
  lemma MarkReadLowersUnread(ms: seq<Message>, id: MessageId, u: UserId, v: UserId)
    ensures Seqs.Count(MarkedRead(ms, id, u), UnreadFor(u)) ==
              Seqs.Count(ms, UnreadFor(u)) - (if id < |ms| && UnreadFor(u)(ms[id]) then 1 else 0)
    ensures Seqs.Count(MarkedRead(ms, id, u), UnreadFor(v)) <= Seqs.Count(ms, UnreadFor(v))
  {
    if id < |ms| && ms[id].sender != u {
      Seqs.CountUpdate(ms, id, ms[id].(isRead := true), UnreadFor(u));
      Seqs.CountUpdate(ms, id, ms[id].(isRead := true), UnreadFor(v));
    }
  }

  /** `markMessageAsRead`: a signed-in caller always gets a success; the message is marked read
      only when it exists and someone else sent it. Nothing checks that the caller takes part in
      the message's transaction. */
  method MarkMessageAsRead(db: Database, caller: Option<Session>, id: MessageId) returns (r: Outcome)
    requires db.Valid()
    modifies db`messages
    ensures db.Valid()
    ensures r == Success <==> caller.Some?
    ensures caller.None? ==> r == Failure(NotLoggedIn) && db.messages == old(db.messages)
    ensures caller.Some? ==> db.messages == MarkedRead(old(db.messages), id, caller.value.userId)
  {
    if caller.None? {
      return Failure(NotLoggedIn);
    }
    db.messages := MarkedRead(db.messages, id, caller.value.userId);
    return Success;
  }
}
