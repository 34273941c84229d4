/** The document store: one object holding every collection the actions read and write,
    and the invariant that the actions keep over them. */
module Store {
  import opened Wrappers
  import opened Models

  /** A transaction is funded exactly when it has left `pending`; a funded one carries an
      escrow id and a completed one its completion time. */
  predicate FundingAgrees(t: Transaction)
  {
    && (t.escrowFunded <==> t.status == Active || t.status == Completed || t.status == Disputed)
    && (t.escrowFunded ==> t.escrowId.Some?)
    && (t.status == Completed ==> t.completedAt.Some?)
  }

  /** Some open dispute names transaction `id`. */
  ghost predicate HasOpenDispute(ds: seq<Dispute>, id: TxId)
  {
    exists j :: 0 <= j < |ds| && ds[j].transactionId == id && ds[j].status == Open
  }

  /** The escrow ledger: every transaction's status agrees with its funding, every disputed
      transaction has an open dispute, and every dispute names an existing transaction. */
  ghost predicate LedgerConsistent(txs: seq<Transaction>, ds: seq<Dispute>)
  {
    && (forall i :: 0 <= i < |txs| ==> FundingAgrees(txs[i]))
    && (forall i :: 0 <= i < |txs| && txs[i].status == Disputed ==> HasOpenDispute(ds, i))
    && (forall j :: 0 <= j < |ds| ==> ds[j].transactionId < |txs|)
  }

  ghost predicate MessagesReferToTransactions(ms: seq<Message>, txs: seq<Transaction>)
  {
    forall k :: 0 <= k < |ms| ==> ms[k].transactionId < |txs|
  }

  /** Each review rates 1 to 5, belongs to a completed transaction whose buyer or seller wrote
      it about its buyer or seller, and no one reviews the same transaction twice. */
  ghost predicate ReviewsWellFormed(rs: seq<Review>, txs: seq<Transaction>)
  {
    && (forall k :: 0 <= k < |rs| ==>
          && 1.0 <= rs[k].rating <= 5.0
          && rs[k].transactionId < |txs|
          && txs[rs[k].transactionId].status == Completed
          && IsParticipant(txs[rs[k].transactionId], rs[k].reviewerId)
          && IsParticipant(txs[rs[k].transactionId], rs[k].revieweeId))
    && (forall k, l :: 0 <= k < l < |rs| ==>
          rs[k].transactionId != rs[l].transactionId || rs[k].reviewerId != rs[l].reviewerId)
  }

  ghost predicate EmailsUnique(users: map<UserId, User>)
  {
    forall u, v :: u in users && v in users && users[u].email == users[v].email ==> u == v
  }

  /** Some stored user has email `e`: the `findOne({ email })` lookups. */
  predicate EmailTaken(users: map<UserId, User>, e: string)
  {
    exists c :: c in users && users[c].email == e
  }

  /** No two entries of `s` are both marked default. */
  ghost predicate AtMostOneDefault<T>(s: seq<T>, isDefault: T -> bool)
  {
    forall i, j :: 0 <= i < j < |s| && isDefault(s[i]) ==> !isDefault(s[j])
  }

  /** The default flags of the two per-user payment lists, and the update that clears one. */
  predicate AccountIsDefault(a: BankAccount) { a.isDefault }
  predicate CardIsDefault(c: CreditCard) { c.isDefault }
  function UnsetAccount(a: BankAccount): BankAccount { a.(isDefault := false) }
  function UnsetCard(c: CreditCard): CreditCard { c.(isDefault := false) }

  ghost predicate NotificationIdsUnique(ns: seq<Notification>)
  {
    forall i, j :: 0 <= i < j < |ns| ==> ns[i].id != ns[j].id
  }

  /** A user's trust score stays within the rating scale, and each payment list has at most
      one default entry. */
  ghost predicate UserWellFormed(u: User)
  {
    && 1.0 <= u.trustScore <= 5.0
    && AtMostOneDefault(u.bankAccounts, AccountIsDefault)
    && AtMostOneDefault(OrEmpty(u.creditCards), CardIsDefault)
    && NotificationIdsUnique(OrEmpty(u.notifications))
  }

  /** Emails identify users, and every user record is well formed. */
  ghost predicate UsersValid(users: map<UserId, User>)
  {
    EmailsUnique(users) && forall u :: u in users ==> UserWellFormed(users[u])
  }

  /** Replacing a user's record by a well-formed one with the same email keeps the users valid. */
  lemma ReplaceUserKeepsUsersValid(users: map<UserId, User>, v: UserId, user: User)
    requires UsersValid(users)
    requires v in users && user.email == users[v].email && UserWellFormed(user)
    ensures UsersValid(users[v := user])
  {
    var users' := users[v := user];
    forall a, b | a in users' && b in users' && users'[a].email == users'[b].email ensures a == b {
      assert users'[a].email == users[a].email && users'[b].email == users[b].email;
    }
  }

  /** Every withdrawal request points at a withdrawal entry of the same user and amount. */
  ghost predicate WithdrawalsBacked(ws: seq<WithdrawalRequest>, es: seq<WalletEntry>)
  {
    forall k :: 0 <= k < |ws| ==>
      && ws[k].entryId < |es|
      && es[ws[k].entryId].kind == Withdrawal
      && es[ws[k].entryId].userId == ws[k].userId
      && es[ws[k].entryId].amount == ws[k].amount
  }

  /** A withdrawal entry recorded together with a request pointing at it keeps every request
      backed. */
  lemma AppendWithdrawalKeepsBacked(ws: seq<WithdrawalRequest>, es: seq<WalletEntry>, w: WithdrawalRequest, e: WalletEntry)
    requires WithdrawalsBacked(ws, es)
    requires e.kind == Withdrawal && w.entryId == |es| && w.userId == e.userId && w.amount == e.amount
    ensures WithdrawalsBacked(ws + [w], es + [e])
  {
    var ws', es' := ws + [w], es + [e];
    forall k | 0 <= k < |ws'|
      ensures ws'[k].entryId < |es'| && es'[ws'[k].entryId].kind == Withdrawal
      ensures es'[ws'[k].entryId].userId == ws'[k].userId && es'[ws'[k].entryId].amount == ws'[k].amount
    {
      if k < |ws| {
        assert ws'[k] == ws[k] && es'[ws[k].entryId] == es[ws[k].entryId];
      }
    }
  }

  /** `$inc: { walletBalance: amount }` on user `u`; when no user has that id the update
      matches nothing and every balance stays as it was. */
  function Credit(users: map<UserId, User>, u: UserId, amount: real): (r: map<UserId, User>)
    ensures r.Keys == users.Keys
    ensures forall v :: v in users && v != u ==> r[v] == users[v]
    ensures u in users ==> r[u] == users[u].(walletBalance := users[u].walletBalance + amount)
  {
    if u in users then users[u := users[u].(walletBalance := users[u].walletBalance + amount)] else users
  }

  /** A balance change touches no email, trust score or payment list, so the users stay valid. */
  lemma CreditKeepsUsersValid(users: map<UserId, User>, u: UserId, amount: real)
    requires UsersValid(users)
    ensures UsersValid(Credit(users, u, amount))
  {
    if u in users {
      ReplaceUserKeepsUsersValid(users, u, users[u].(walletBalance := users[u].walletBalance + amount));
    }
  }

  /** Transactions are never removed, their parties never change, a funded escrow stays funded,
      and a completed transaction never changes at all. */
  ghost predicate TransactionsEvolve(txs: seq<Transaction>, txs': seq<Transaction>)
  {
    && |txs| <= |txs'|
    && (forall i :: 0 <= i < |txs| ==> txs'[i].buyer == txs[i].buyer && txs'[i].seller == txs[i].seller)
    && (forall i :: 0 <= i < |txs| && txs[i].escrowFunded ==> txs'[i].escrowFunded)
    && (forall i :: 0 <= i < |txs| && txs[i].status == Completed ==> txs'[i] == txs[i])
  }

  /** Reviews and messages stay well formed whenever the transactions evolve as above. */
  lemma TransactionsEvolveKeepsReferences(txs: seq<Transaction>, txs': seq<Transaction>, rs: seq<Review>, ms: seq<Message>)
    requires TransactionsEvolve(txs, txs')
    requires ReviewsWellFormed(rs, txs) && MessagesReferToTransactions(ms, txs)
    ensures ReviewsWellFormed(rs, txs') && MessagesReferToTransactions(ms, txs')
  {
  }

  class Database {
    var users: map<UserId, User>
    var transactions: seq<Transaction>
    var disputes: seq<Dispute>
    var messages: seq<Message>
    var reviews: seq<Review>
    var walletEntries: seq<WalletEntry>
    var withdrawals: seq<WithdrawalRequest>

    ghost predicate Valid()
      reads this
    {
      && UsersValid(users)
      && LedgerConsistent(transactions, disputes)
      && MessagesReferToTransactions(messages, transactions)
      && ReviewsWellFormed(reviews, transactions)
      && WithdrawalsBacked(withdrawals, walletEntries)
    }

    /** An empty store. */
    constructor ()
      ensures Valid()
      ensures users == map[] && transactions == [] && disputes == [] && messages == []
      ensures reviews == [] && walletEntries == [] && withdrawals == []
    {
      users := map[];
      transactions := [];
      disputes := [];
      messages := [];
      reviews := [];
      walletEntries := [];
      withdrawals := [];
    }
  }
}
