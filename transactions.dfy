/** The escrow transaction life cycle: a transaction is created pending, funded into escrow
    (active), and then either released to the seller (completed) or disputed. */
module TransactionActions {
  import opened Wrappers
  import opened Models
  import opened Store
  import Seqs
  import PaymentActions

  /** The form check of `createTransaction`: an empty text field, an amount that is zero or not a
      number (`None`), or no payment method. The payment details may be empty. */
  predicate FormIncomplete(title: string, description: string, amount: Option<real>, currency: string,
                           role: string, counterpartyEmail: string, paymentMethod: Option<PaymentMethodType>)
  {
    title == "" || description == "" || amount.None? || amount == Some(0.0) || currency == ""
    || role == "" || counterpartyEmail == "" || paymentMethod.None?
  }

  function PartyOf(s: Session): Party
  {
    Party(s.userId, s.email, s.name)
  }

  /** The record `createTransaction` inserts. The creator is the buyer when `role` is "buyer" and
      the seller when it is "seller"; every other side is the counterparty. */
  function NewTransaction(creator: Session, counterparty: Party, role: string, title: string,
                          description: string, amount: real, currency: string,
                          paymentMethod: PaymentMethodType, paymentDetails: string, now: Time): (t: Transaction)
    ensures t.status == Pending && !t.escrowFunded && FundingAgrees(t)
    ensures |t.timeline| == 1 && t.timeline[0].event == "Transaction created"
  {
    Transaction(
      title, description, amount, currency, Pending,
      if role == "buyer" then PartyOf(creator) else counterparty,
      if role == "seller" then PartyOf(creator) else counterparty,
      false, PaymentMethod(paymentMethod, paymentDetails), None, now, now, None,
      [TimelineEntry(now, "Transaction created", "Transaction initiated by " + creator.name)])
  }

  /** With role "buyer" the creator buys from the counterparty, with role "seller" the creator
      sells to it; any other role names the counterparty on both sides, so the creator is then a
      party only when it is itself the counterparty. */
  lemma NewTransactionRoles(creator: Session, counterparty: Party, role: string, title: string,
                            description: string, amount: real, currency: string,
                            paymentMethod: PaymentMethodType, paymentDetails: string, now: Time)
    ensures var t := NewTransaction(creator, counterparty, role, title, description, amount, currency,
                                    paymentMethod, paymentDetails, now);
      && (role == "buyer" ==> t.buyer == PartyOf(creator) && t.seller == counterparty)
      && (role == "seller" ==> t.buyer == counterparty && t.seller == PartyOf(creator))
      && (role != "buyer" && role != "seller" ==> t.buyer == counterparty && t.seller == counterparty)
      && (IsParticipant(t, creator.userId) <==>
            role == "buyer" || role == "seller" || counterparty.userId == creator.userId)
  {
  }

  /** Only the status, the escrow fields and the timestamps change once a transaction exists. */
  predicate SameDeal(t: Transaction, t': Transaction)
  {
    && t'.title == t.title && t'.description == t.description
    && t'.amount == t.amount && t'.currency == t.currency
    && t'.buyer == t.buyer && t'.seller == t.seller
    && t'.paymentMethod == t.paymentMethod && t'.createdAt == t.createdAt
    && t'.timeline == t.timeline
  }

  /** The `$set` of `fundEscrow`. */
  function MarkFunded(t: Transaction, escrowId: string, now: Time): (t': Transaction)
    ensures t'.status == Active && t'.escrowFunded && t'.escrowId == Some(escrowId)
    ensures FundingAgrees(t') && SameDeal(t, t')
  {
    t.(status := Active, escrowFunded := true, escrowId := Some(escrowId), updatedAt := now)
  }

  /** The `$set` of `releaseEscrowFunds`. */
  function MarkCompleted(t: Transaction, now: Time): (t': Transaction)
    requires FundingAgrees(t) && t.escrowFunded
    ensures t'.status == Completed && t'.completedAt == Some(now) && t'.escrowId == t.escrowId
    ensures FundingAgrees(t') && SameDeal(t, t')
  {
    t.(status := Completed, completedAt := Some(now), updatedAt := now)
  }

  /** The `$set` of `createDispute`. */
  function MarkDisputed(t: Transaction, now: Time): (t': Transaction)
    requires FundingAgrees(t) && t.status == Active
    ensures t'.status == Disputed && t'.escrowFunded && t'.escrowId == t.escrowId
    ensures FundingAgrees(t') && SameDeal(t, t')
  {
    t.(status := Disputed, updatedAt := now)
  }

  predicate IsBuyerIn(txs: seq<Transaction>, id: TxId, u: UserId)
  {
    id < |txs| && txs[id].buyer.userId == u
  }

  predicate IsPartyIn(txs: seq<Transaction>, id: TxId, u: UserId)
  {
    id < |txs| && IsParticipant(txs[id], u)
  }

  /** Appending a new pending transaction keeps the ledger consistent. */
  lemma CreateKeepsLedger(txs: seq<Transaction>, ds: seq<Dispute>, t: Transaction)
    requires LedgerConsistent(txs, ds)
    requires t.status == Pending && FundingAgrees(t)
    ensures LedgerConsistent(txs + [t], ds) && TransactionsEvolve(txs, txs + [t])
  {
    var txs' := txs + [t];
    forall i | 0 <= i < |txs'| && txs'[i].status == Disputed ensures HasOpenDispute(ds, i) {
      assert i < |txs| && txs'[i] == txs[i];
    }
  }

  /** Funding an unfunded transaction keeps the ledger consistent: since an unfunded transaction
      is never disputed, no dispute loses its transaction's disputed status. */
  lemma FundKeepsLedger(txs: seq<Transaction>, ds: seq<Dispute>, id: TxId, escrowId: string, now: Time)
    requires LedgerConsistent(txs, ds)
    requires id < |txs| && !txs[id].escrowFunded
    ensures var txs' := txs[id := MarkFunded(txs[id], escrowId, now)];
      LedgerConsistent(txs', ds) && TransactionsEvolve(txs, txs')
    ensures txs[id].status == Pending || txs[id].status == Cancelled
  {
    assert FundingAgrees(txs[id]);
  }

  /** Completing a funded active transaction keeps the ledger consistent. */
  lemma ReleaseKeepsLedger(txs: seq<Transaction>, ds: seq<Dispute>, id: TxId, now: Time)
    requires LedgerConsistent(txs, ds)
    requires id < |txs| && txs[id].escrowFunded && txs[id].status == Active
    ensures var txs' := txs[id := MarkCompleted(txs[id], now)];
      LedgerConsistent(txs', ds) && TransactionsEvolve(txs, txs')
  {
  }

  /** Disputing an active transaction while appending its open dispute keeps the ledger
      consistent: the new dispute is the one the disputed transaction needs. */
  lemma DisputeKeepsLedger(txs: seq<Transaction>, ds: seq<Dispute>, id: TxId, d: Dispute, now: Time)
    requires LedgerConsistent(txs, ds)
    requires id < |txs| && txs[id].status == Active
    requires d.transactionId == id && d.status == Open
    ensures var txs' := txs[id := MarkDisputed(txs[id], now)];
      LedgerConsistent(txs', ds + [d]) && TransactionsEvolve(txs, txs')
  {
    var txs' := txs[id := MarkDisputed(txs[id], now)];
    var ds' := ds + [d];
    forall i | 0 <= i < |txs'| && txs'[i].status == Disputed ensures HasOpenDispute(ds', i) {
      if i == id {
        assert ds'[|ds|] == d;
      } else {
        var j :| 0 <= j < |ds| && ds[j].transactionId == i && ds[j].status == Open;
        assert ds'[j] == ds[j];
      }
    }
  }

  /** `createTransaction`: after the form check the counterparty is looked up by email, and the
      new pending transaction is appended; its identifier is returned. */
  method CreateTransaction(db: Database, caller: Option<Session>, title: string, description: string,
                           amount: Option<real>, currency: string, role: string, counterpartyEmail: string,
                           paymentMethod: Option<PaymentMethodType>, paymentDetails: string, now: Time)
    returns (r: Result<TxId>)
    requires db.Valid()
    modifies db`transactions
    ensures db.Valid()
    ensures caller.None? ==> r == Err(NotLoggedIn)
    ensures caller.Some? && FormIncomplete(title, description, amount, currency, role, counterpartyEmail, paymentMethod) ==>
              r == Err("All fields are required")
    ensures caller.Some? && !FormIncomplete(title, description, amount, currency, role, counterpartyEmail, paymentMethod)
            && !EmailTaken(db.users, counterpartyEmail) ==>
              r == Err("Counterparty not found")
    ensures r.Ok? <==>
              && caller.Some? && !FormIncomplete(title, description, amount, currency, role, counterpartyEmail, paymentMethod)
              && EmailTaken(db.users, counterpartyEmail)
    ensures r.Err? ==> db.transactions == old(db.transactions)
    ensures r.Ok? ==>
              && r.value == |old(db.transactions)|
              && exists c :: c in db.users && db.users[c].email == counterpartyEmail &&
                   db.transactions == old(db.transactions) +
                     [NewTransaction(caller.value, Party(c, counterpartyEmail, db.users[c].name), role, title,
                                     description, amount.value, currency, paymentMethod.value, paymentDetails, now)]
    ensures TransactionsEvolve(old(db.transactions), db.transactions)
  {
    if caller.None? {
      return Err(NotLoggedIn);
    }
    if FormIncomplete(title, description, amount, currency, role, counterpartyEmail, paymentMethod) {
      return Err("All fields are required");
    }
    if !EmailTaken(db.users, counterpartyEmail) {
      return Err("Counterparty not found");
    }
    var c :| c in db.users && db.users[c].email == counterpartyEmail;
    var t := NewTransaction(caller.value, Party(c, counterpartyEmail, db.users[c].name), role, title,
                            description, amount.value, currency, paymentMethod.value, paymentDetails, now);
    CreateKeepsLedger(db.transactions, db.disputes, t);
    TransactionsEvolveKeepsReferences(db.transactions, db.transactions + [t], db.reviews, db.messages);
    r := Ok(|db.transactions|);
    db.transactions := db.transactions + [t];
  }

  /** What the store answers to the update documents `{ $set: …, push: … }` of `fundEscrow`,
      `releaseEscrowFunds` and `createDispute`: `push` is not an update operator, so the whole
      update is refused. */
  const UnknownModifierPush := "Unknown modifier: push. Expected a valid update modifier or pipeline-style update specified as an array"

  /** The checks `fundEscrow` makes before it writes, in source order: the answer of the first
      that fails, or `Success` when the update is reached. */
  function FundEscrowCheck(txs: seq<Transaction>, caller: Option<Session>, id: TxId,
                           intent: Option<PaymentActions.PaymentIntent>, escrowId: string): (r: Outcome)
    ensures r == Success <==>
              && caller.Some? && IsBuyerIn(txs, id, caller.value.userId)
              && !txs[id].escrowFunded && intent.Some? && intent.value.succeeded
  {
    if caller.None? then Failure(NotLoggedIn)
    else if !IsBuyerIn(txs, id, caller.value.userId) then Failure("Transaction not found or you are not the buyer")
    else if txs[id].escrowFunded then Failure("Escrow already funded")
    else if PaymentActions.CreateEscrow(intent, escrowId).Err? then Failure(PaymentActions.CreateEscrow(intent, escrowId).error)
    else Success
  }

  /** `fundEscrow`: only the buyer can fund, only once, and only with a payment the gateway
      reports as succeeded. The status is not checked: any unfunded transaction becomes active. */
  method FundEscrow(db: Database, caller: Option<Session>, id: TxId, intent: Option<PaymentActions.PaymentIntent>,
                    escrowId: string, now: Time)
    returns (r: Outcome)
    requires db.Valid()
    modifies db`transactions
    ensures db.Valid()
    ensures caller.None? ==> r == Failure(NotLoggedIn)
    ensures caller.Some? && !IsBuyerIn(db.transactions, id, caller.value.userId) ==>
              r == Failure("Transaction not found or you are not the buyer")
    ensures caller.Some? && IsBuyerIn(old(db.transactions), id, caller.value.userId) && old(db.transactions)[id].escrowFunded ==>
              r == Failure("Escrow already funded")
    ensures caller.Some? && IsBuyerIn(old(db.transactions), id, caller.value.userId) && !old(db.transactions)[id].escrowFunded
            && PaymentActions.CreateEscrow(intent, escrowId).Err? ==>
              r == Failure(PaymentActions.CreateEscrow(intent, escrowId).error)
    ensures r == Success <==>
              && caller.Some? && IsBuyerIn(old(db.transactions), id, caller.value.userId)
              && !old(db.transactions)[id].escrowFunded && intent.Some? && intent.value.succeeded
    ensures r.Failure? ==> db.transactions == old(db.transactions)
    ensures r == Success ==>
              db.transactions == old(db.transactions)[id := MarkFunded(old(db.transactions)[id], escrowId, now)]
    ensures TransactionsEvolve(old(db.transactions), db.transactions)
  {
    r := FundEscrowCheck(db.transactions, caller, id, intent, escrowId);
    if r.Failure? {
      return;
    }
    var escrow := PaymentActions.CreateEscrow(intent, escrowId);
    FundKeepsLedger(db.transactions, db.disputes, id, escrow.value, now);
    var txs' := db.transactions[id := MarkFunded(db.transactions[id], escrow.value, now)];
    TransactionsEvolveKeepsReferences(db.transactions, txs', db.reviews, db.messages);
    db.transactions := txs';
  }

  /** `fundEscrow` as written: the store refuses its update, so the caller gets the store's
      error even after the gateway reported the payment as succeeded, and the transaction stays
      unfunded. Every other answer is the one `FundEscrow` gives. */
  method FundEscrowAsWritten(db: Database, caller: Option<Session>, id: TxId,
                             intent: Option<PaymentActions.PaymentIntent>, escrowId: string)
    returns (r: Outcome)
    ensures r != Success
    ensures FundEscrowCheck(db.transactions, caller, id, intent, escrowId).Failure? ==>
              r == FundEscrowCheck(db.transactions, caller, id, intent, escrowId)
    ensures caller.Some? && IsBuyerIn(db.transactions, id, caller.value.userId) && !db.transactions[id].escrowFunded
            && intent.Some? && intent.value.succeeded ==>
              r == Failure(UnknownModifierPush)
  {
    r := FundEscrowCheck(db.transactions, caller, id, intent, escrowId);
    if r == Success {
      r := Failure(UnknownModifierPush);
    }
  }

  /** The checks `releaseEscrowFunds` makes before it writes, in source order: the answer of the
      first that fails, or `Success` when the update is reached. */
  function ReleaseEscrowCheck(txs: seq<Transaction>, caller: Option<Session>, id: TxId): (r: Outcome)
    ensures r == Success <==>
              && caller.Some? && IsBuyerIn(txs, id, caller.value.userId)
              && txs[id].escrowFunded && txs[id].status == Active
  {
    if caller.None? then Failure(NotLoggedIn)
    else if !IsPartyIn(txs, id, caller.value.userId) then Failure("Transaction not found")
    else if !txs[id].escrowFunded then Failure("Escrow not funded")
    else if txs[id].status != Active then Failure("Transaction is not active")
    else if txs[id].buyer.userId != caller.value.userId then Failure("Only the buyer can release funds")
    else Success
  }

  /** `releaseEscrowFunds`: checks, in this order, that the caller is a party, that the escrow
      is funded, that the transaction is active and that the caller is its buyer; then the
      transaction is completed. The escrow release itself always succeeds and moves no money. */
  method ReleaseEscrowFunds(db: Database, caller: Option<Session>, id: TxId, now: Time)
    returns (r: Outcome)
    requires db.Valid()
    modifies db`transactions
    ensures db.Valid()
    ensures caller.None? ==> r == Failure(NotLoggedIn)
    ensures caller.Some? && !IsPartyIn(old(db.transactions), id, caller.value.userId) ==>
              r == Failure("Transaction not found")
    ensures caller.Some? && IsPartyIn(old(db.transactions), id, caller.value.userId)
            && !old(db.transactions)[id].escrowFunded ==>
              r == Failure("Escrow not funded")
    ensures caller.Some? && IsPartyIn(old(db.transactions), id, caller.value.userId)
            && old(db.transactions)[id].escrowFunded && old(db.transactions)[id].status != Active ==>
              r == Failure("Transaction is not active")
    ensures caller.Some? && IsPartyIn(old(db.transactions), id, caller.value.userId)
            && old(db.transactions)[id].escrowFunded && old(db.transactions)[id].status == Active
            && !IsBuyerIn(old(db.transactions), id, caller.value.userId) ==>
              r == Failure("Only the buyer can release funds")
    ensures r == Success <==>
              && caller.Some? && IsBuyerIn(old(db.transactions), id, caller.value.userId)
              && old(db.transactions)[id].escrowFunded && old(db.transactions)[id].status == Active
    ensures r.Failure? ==> db.transactions == old(db.transactions)
    ensures r == Success ==>
              && old(db.transactions)[id].escrowId.Some?
              && PaymentActions.ReleaseEscrow(old(db.transactions)[id].escrowId.value)
              && db.transactions == old(db.transactions)[id := MarkCompleted(old(db.transactions)[id], now)]
    ensures TransactionsEvolve(old(db.transactions), db.transactions)
  {
    r := ReleaseEscrowCheck(db.transactions, caller, id);
    if r.Failure? {
      return;
    }
    var t := db.transactions[id];
    var released := PaymentActions.ReleaseEscrow(t.escrowId.value);
    ReleaseKeepsLedger(db.transactions, db.disputes, id, now);
    var txs' := db.transactions[id := MarkCompleted(t, now)];
    TransactionsEvolveKeepsReferences(db.transactions, txs', db.reviews, db.messages);
    db.transactions := txs';
  }

  /** `releaseEscrowFunds` as written: the store refuses its update, so the buyer of a funded,
      active transaction gets the store's error and the transaction is never completed. Every
      other answer is the one `ReleaseEscrowFunds` gives. */
  method ReleaseEscrowFundsAsWritten(db: Database, caller: Option<Session>, id: TxId) returns (r: Outcome)
    ensures r != Success
    ensures ReleaseEscrowCheck(db.transactions, caller, id).Failure? ==> r == ReleaseEscrowCheck(db.transactions, caller, id)
    ensures caller.Some? && IsBuyerIn(db.transactions, id, caller.value.userId)
            && db.transactions[id].escrowFunded && db.transactions[id].status == Active ==>
              r == Failure(UnknownModifierPush)
  {
    r := ReleaseEscrowCheck(db.transactions, caller, id);
    if r == Success {
      r := Failure(UnknownModifierPush);
    }
  }

  /** The checks `createDispute` makes before it writes, in source order: the answer of the
      first that fails, or `Success` when the insert is reached. */
  function CreateDisputeCheck(txs: seq<Transaction>, caller: Option<Session>, id: TxId): (r: Outcome)
    ensures r == Success <==> caller.Some? && IsPartyIn(txs, id, caller.value.userId) && txs[id].status == Active
  {
    if caller.None? then Failure(NotLoggedIn)
    else if !IsPartyIn(txs, id, caller.value.userId) then Failure("Transaction not found")
    else if txs[id].status != Active then Failure("Can only dispute active transactions")
    else Success
  }

  /** `createDispute`: a party to an active transaction opens a dispute about it, and the
      transaction becomes disputed; a disputed transaction is no longer active, so it cannot be
      disputed again. The new dispute is the last one
      stored; the answer itself carries only the success. */
  method CreateDispute(db: Database, caller: Option<Session>, id: TxId, reason: string, now: Time)
    returns (r: Outcome)
    requires db.Valid()
    modifies db`transactions, db`disputes
    ensures db.Valid()
    ensures caller.None? ==> r == Failure(NotLoggedIn)
    ensures caller.Some? && !IsPartyIn(old(db.transactions), id, caller.value.userId) ==>
              r == Failure("Transaction not found")
    ensures caller.Some? && IsPartyIn(old(db.transactions), id, caller.value.userId)
            && old(db.transactions)[id].status != Active ==>
              r == Failure("Can only dispute active transactions")
    ensures r == Success <==>
              && caller.Some? && IsPartyIn(old(db.transactions), id, caller.value.userId)
              && old(db.transactions)[id].status == Active
    ensures r.Failure? ==> db.transactions == old(db.transactions) && db.disputes == old(db.disputes)
    ensures r == Success ==>
              && db.disputes == old(db.disputes) + [Dispute(id, caller.value.userId, None, reason, Open, None, now, None)]
              && db.transactions == old(db.transactions)[id := MarkDisputed(old(db.transactions)[id], now)]
    ensures TransactionsEvolve(old(db.transactions), db.transactions)
  {
    r := CreateDisputeCheck(db.transactions, caller, id);
    if r.Failure? {
      return;
    }
    var d := Dispute(id, caller.value.userId, None, reason, Open, None, now, None);
    assert FundingAgrees(db.transactions[id]);
    DisputeKeepsLedger(db.transactions, db.disputes, id, d, now);
    var txs' := db.transactions[id := MarkDisputed(db.transactions[id], now)];
    TransactionsEvolveKeepsReferences(db.transactions, txs', db.reviews, db.messages);
    db.disputes := db.disputes + [d];
    db.transactions := txs';
  }

  /** A transaction the caller has just disputed cannot be disputed again: it is no longer
      active. */
  lemma DisputedCannotBeDisputedAgain(txs: seq<Transaction>, caller: Option<Session>, id: TxId, now: Time)
    requires CreateDisputeCheck(txs, caller, id) == Success && FundingAgrees(txs[id])
    ensures CreateDisputeCheck(txs[id := MarkDisputed(txs[id], now)], caller, id) == Failure("Can only dispute active transactions")
  {
  }

  /** Appending a dispute about a stored transaction keeps the escrow ledger consistent. */
  lemma AppendDisputeKeepsLedger(txs: seq<Transaction>, ds: seq<Dispute>, d: Dispute)
    requires LedgerConsistent(txs, ds)
    requires d.transactionId < |txs|
    ensures LedgerConsistent(txs, ds + [d])
  {
    var ds' := ds + [d];
    forall i | 0 <= i < |txs| && txs[i].status == Disputed ensures HasOpenDispute(ds', i) {
      var j :| 0 <= j < |ds| && ds[j].transactionId == i && ds[j].status == Open;
      assert ds'[j] == ds[j];
    }
  }

  /** `createDispute` as written: the dispute is inserted, then the store refuses the update of
      the transaction. The open dispute stays, the transaction stays active, and the caller gets
      the store's error. Every other answer is the one `CreateDispute` gives. */
  method CreateDisputeAsWritten(db: Database, caller: Option<Session>, id: TxId, reason: string, now: Time)
    returns (r: Outcome)
    requires db.Valid()
    modifies db`disputes
    ensures db.Valid()
    ensures r != Success
    ensures CreateDisputeCheck(old(db.transactions), caller, id).Failure? ==>
              r == CreateDisputeCheck(old(db.transactions), caller, id) && db.disputes == old(db.disputes)
    ensures CreateDisputeCheck(old(db.transactions), caller, id) == Success ==>
              && r == Failure(UnknownModifierPush)
              && db.disputes == old(db.disputes) + [Dispute(id, caller.value.userId, None, reason, Open, None, now, None)]
              && db.transactions[id].status == Active
  {
    r := CreateDisputeCheck(db.transactions, caller, id);
    if r.Failure? {
      return;
    }
    var d := Dispute(id, caller.value.userId, None, reason, Open, None, now, None);
    AppendDisputeKeepsLedger(db.transactions, db.disputes, d);
    db.disputes := db.disputes + [d];
    r := Failure(UnknownModifierPush);
  }

  /** As written, a party can dispute the same transaction again and again: each call answers
      with the store's error, and each leaves one more open dispute about a transaction that is
      still active. */
  method DisputeTwiceAsWritten(db: Database, caller: Option<Session>, id: TxId, reason: string, now: Time)
    returns (r1: Outcome, r2: Outcome)
    requires db.Valid()
    requires CreateDisputeCheck(db.transactions, caller, id) == Success
    modifies db`disputes
    ensures db.Valid()
    ensures r1 == r2 == Failure(UnknownModifierPush)
    ensures var d := Dispute(id, caller.value.userId, None, reason, Open, None, now, None);
            db.disputes == old(db.disputes) + [d, d]
    ensures db.transactions[id].status == Active
  {
    r1 := CreateDisputeAsWritten(db, caller, id, reason, now);
    r2 := CreateDisputeAsWritten(db, caller, id, reason, now);
  }

  /** The query of `getTransactions`: the caller's transactions, and with the "escrow" filter
      only the active, funded ones. */
  function Listed(u: UserId, filter: string): Transaction -> bool
  {
    (t: Transaction) => IsParticipant(t, u) && (filter == "escrow" ==> t.status == Active && t.escrowFunded)
  }

  /** The sort key of `sort({ createdAt: -1 })`. */
  function NewestTransactionFirst(t: Transaction): int
  {
    -(t.createdAt as int)
  }

  /** The query of `getTransactions` run against the store: the transactions of `u` that pass
      the filter, sorted newest first. */
  function Query(txs: seq<Transaction>, u: UserId, filter: string): seq<Transaction>
  {
    Seqs.SortBy(Seqs.Filter(txs, Listed(u, filter)), NewestTransactionFirst)
  }

  /** The query returns each listed transaction as often as the store holds it, nothing else,
      newest first. */
  lemma QueryListsNewestFirst(txs: seq<Transaction>, u: UserId, filter: string)
    ensures forall t :: multiset(Query(txs, u, filter))[t] == if Listed(u, filter)(t) then multiset(txs)[t] else 0
    ensures forall i, j :: 0 <= i < j < |Query(txs, u, filter)| ==>
              Query(txs, u, filter)[i].createdAt >= Query(txs, u, filter)[j].createdAt
  {
    var p := Listed(u, filter);
    var sorted := Seqs.SortBy(Seqs.Filter(txs, p), NewestTransactionFirst);
    Seqs.FilterMultiplicity(txs, p);
    forall i, j | 0 <= i < j < |sorted| ensures sorted[i].createdAt >= sorted[j].createdAt {
      assert NewestTransactionFirst(sorted[i]) <= NewestTransactionFirst(sorted[j]);
    }
  }

  /** `getTransactions`: exactly the caller's transactions that pass the filter, each as often as
      it is stored, newest first. */
  function GetTransactions(txs: seq<Transaction>, caller: Option<Session>, filter: string): (r: Result<seq<Transaction>>)
    ensures caller.None? ==> r == Err(NotLoggedIn)
    ensures caller.Some? ==> r.Ok? && |r.value| <= |txs|
    ensures r.Ok? ==>
              forall t :: multiset(r.value)[t] ==
                if IsParticipant(t, caller.value.userId) && (filter == "escrow" ==> t.status == Active && t.escrowFunded)
                then multiset(txs)[t] else 0
    ensures r.Ok? ==> forall t :: t in r.value <==>
              t in txs && IsParticipant(t, caller.value.userId)
              && (filter == "escrow" ==> t.status == Active && t.escrowFunded)
    ensures r.Ok? ==> forall i, j :: 0 <= i < j < |r.value| ==> r.value[i].createdAt >= r.value[j].createdAt
  {
    if caller.None? then Err(NotLoggedIn)
    else
      QueryListsNewestFirst(txs, caller.value.userId, filter);
      var r := Query(txs, caller.value.userId, filter);
      assert forall t :: t in r <==> multiset(r)[t] > 0;
      assert forall t :: t in txs <==> multiset(txs)[t] > 0;
      Ok(r)
  }
}
