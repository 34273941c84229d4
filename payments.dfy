/** The wallet, the escrow hooks of the payment gateway, and the per-user lists of bank
    accounts and credit cards. */
module PaymentActions {
  import opened Wrappers
  import opened Models
  import opened Store
  import opened Text
  import Seqs

  /** A payment intent as the gateway reports it when it is retrieved: whether it has succeeded,
      the `purpose` and `userId` written into its metadata when it was created, its amount in
      cents and the payment method it was paid with. */
  datatype PaymentIntent = PaymentIntent(
    succeeded: bool,
    purpose: string,
    ownerId: Option<UserId>,
    amountCents: nat,
    paymentMethodId: string)

  const WalletFunding := "wallet_funding"

  const FieldsRequired := "All fields are required"
  const NonPositiveAmount := "Amount must be greater than zero"
  const InsufficientFunds := "Insufficient funds in wallet"
  const UserNotFound := "User not found"

  /** An intent created by the wallet top-up of user `u`. */
  predicate FundsWalletOf(intent: PaymentIntent, u: UserId)
  {
    intent.purpose == WalletFunding && intent.ownerId == Some(u)
  }

  /** The gateway's amount in currency units. */
  function CentsToAmount(cents: nat): real
  {
    cents as real / 100.0
  }

  /** `createEscrow`: the escrow is opened exactly when the gateway reports the intent as
      succeeded (`intent == None` stands for a retrieval that threw); `escrowId` is the freshly
      generated identifier. Neither the amount nor the owner of the intent is looked at. */
  function CreateEscrow(intent: Option<PaymentIntent>, escrowId: string): (r: Result<string>)
    ensures r.Ok? <==> intent.Some? && intent.value.succeeded
    ensures r.Ok? ==> r.value == escrowId
    ensures intent.None? ==> r == Err("Failed to create escrow")
    ensures intent.Some? && !intent.value.succeeded ==> r == Err("Payment has not been completed")
  {
    if intent.None? then Err("Failed to create escrow")
    else if !intent.value.succeeded then Err("Payment has not been completed")
    else Ok(escrowId)
  }

  /** `releaseEscrow` is a stand-in that reports success for every escrow and moves no money. */
  function ReleaseEscrow(escrowId: string): (ok: bool)
    ensures ok
  {
    true
  }

  /** The stored form of an account or routing number: four asterisks followed by the last four
      characters (`slice(-4)`), so no more than four characters of the number are kept, and those
      are a suffix of it. */
  function Mask(number: string): (r: string)
    ensures |r| == 4 + (if |number| < 4 then |number| else 4)
    ensures r[..4] == "****"
    ensures number == number[..|number| - (|r| - 4)] + r[4..]
  {
    "****" + LastChars(number, 4)
  }

  /** The update `addBankAccount` and `addCreditCard` make to a payment list: when the new entry
      is the default one, every existing entry is first made non-default
      (`$set: { "list.$[].isDefault": false }`); then the entry is appended (`$push`). */
  function AddEntry<T>(s: seq<T>, x: T, isDefault: T -> bool, unset: T -> T): (r: seq<T>)
    ensures |r| == |s| + 1 && r[|s|] == x
    ensures isDefault(x) ==> forall i :: 0 <= i < |s| ==> r[i] == unset(s[i])
    ensures !isDefault(x) ==> r[..|s|] == s
  {
    if isDefault(x) then seq(|s|, i requires 0 <= i < |s| => unset(s[i])) + [x] else s + [x]
  }

  /** Adding an entry keeps at most one default in the list, and a new default entry is then the
      only default one. */
  lemma {:induction false} AddEntryKeepsOneDefault<T>(s: seq<T>, x: T, isDefault: T -> bool, unset: T -> T)
    requires forall y :: !isDefault(unset(y))
    requires AtMostOneDefault(s, isDefault)
    ensures AtMostOneDefault(AddEntry(s, x, isDefault, unset), isDefault)
    ensures isDefault(x) ==> forall i :: 0 <= i < |s| ==> !isDefault(AddEntry(s, x, isDefault, unset)[i])
  {
    var r := AddEntry(s, x, isDefault, unset);
    if isDefault(x) {
      forall i | 0 <= i < |s| ensures !isDefault(r[i]) {
        assert r[i] == unset(s[i]);
      }
    } else {
      forall i, j | 0 <= i < j < |r| && isDefault(r[i]) ensures !isDefault(r[j]) {
        assert r[i] == s[i];
        if j < |s| {
          assert r[j] == s[j];
        }
      }
    }
  }

  /** `addBankAccount`: all four fields are required; the account is stored with its numbers
      masked, after clearing the other defaults when it is the default one. `accountId` is the
      fresh identifier. When no stored user has the caller's id nothing is written, yet the
      answer is still a success. */
  method AddBankAccount(db: Database, caller: Option<Session>, accountType: string, accountName: string,
                        accountNumber: string, routingNumber: string, isDefault: bool, accountId: nat, now: Time)
    returns (r: Outcome)
    requires db.Valid()
    modifies db`users
    ensures db.Valid()
    ensures caller.None? ==> r == Failure(NotLoggedIn)
    ensures caller.Some? && (accountType == "" || accountName == "" || accountNumber == "" || routingNumber == "") ==>
                  r == Failure(FieldsRequired)
    ensures r == Success <==>
              caller.Some? && accountType != "" && accountName != "" && accountNumber != "" && routingNumber != ""
    ensures r.Failure? || caller.value.userId !in old(db.users) ==> db.users == old(db.users)
    ensures r == Success && caller.value.userId in old(db.users) ==>
              var u := caller.value.userId;
              var account := BankAccount(accountId, u, accountType, accountName, Mask(accountNumber),
                                         Mask(routingNumber), isDefault, now);
              db.users == old(db.users)[u := old(db.users)[u].(bankAccounts :=
                AddEntry(old(db.users)[u].bankAccounts, account, AccountIsDefault, UnsetAccount))]
  {
    if caller.None? {
      return Failure(NotLoggedIn);
    }
    if accountType == "" || accountName == "" || accountNumber == "" || routingNumber == "" {
      return Failure(FieldsRequired);
    }
    var u := caller.value.userId;
    if u in db.users {
      var account := BankAccount(accountId, u, accountType, accountName, Mask(accountNumber),
                                 Mask(routingNumber), isDefault, now);
      var user := db.users[u];
      var user' := user.(bankAccounts := AddEntry(user.bankAccounts, account, AccountIsDefault, UnsetAccount));
      AddEntryKeepsOneDefault(user.bankAccounts, account, AccountIsDefault, UnsetAccount);
      ReplaceUserKeepsUsersValid(db.users, u, user');
      db.users := db.users[u := user'];
    }
    return Success;
  }

  /** What the gateway answers when a card is registered with it: the new payment method and
      its brand ("" when it reports none), a card error with its message ("" when it has none),
      or any other failure. */
  const CardDeclinedMessage := "Your card was declined"
  const CardFailedMessage := "Failed to add credit card. Please check your card details and try again."

  datatype CardReply =
    | CardCreated(paymentMethodId: string, brand: string)
    | CardDeclined(message: string)
    | CardFailed

  /** The store refuses `$set: { "creditCards.$[].isDefault": false }` on a user document that
      has no card list: an array update needs the array to exist. */
  predicate CardDefaultUpdateFails(users: map<UserId, User>, u: UserId, isDefault: bool)
  {
    u in users && isDefault && users[u].creditCards.None?
  }

  /** The writes of `addCreditCard` once the gateway has registered the card: for a default card
      the other cards are made non-default, which fails when the user has no card list; then the
      card is appended, which creates the list when it is missing. `stored` tells whether the
      writes went through; when no stored user has id `u` they match nothing. */
  method StoreCard(db: Database, u: UserId, card: CreditCard) returns (stored: bool)
    requires db.Valid()
    modifies db`users
    ensures db.Valid()
    ensures stored <==> !CardDefaultUpdateFails(old(db.users), u, card.isDefault)
    ensures !stored || u !in old(db.users) ==> db.users == old(db.users)
    ensures stored && u in old(db.users) ==>
              db.users == old(db.users)[u := old(db.users)[u].(creditCards :=
                Some(AddEntry(OrEmpty(old(db.users)[u].creditCards), card, CardIsDefault, UnsetCard)))]
  {
    if CardDefaultUpdateFails(db.users, u, card.isDefault) {
      return false;
    }
    if u in db.users {
      var user := db.users[u];
      var cards := OrEmpty(user.creditCards);
      var user' := user.(creditCards := Some(AddEntry(cards, card, CardIsDefault, UnsetCard)));
      AddEntryKeepsOneDefault(cards, card, CardIsDefault, UnsetCard);
      ReplaceUserKeepsUsersValid(db.users, u, user');
      db.users := db.users[u := user'];
    }
    return true;
  }

  /** `addCreditCard`: all five fields are required; the card is registered with the gateway
      first, and only a registered card is stored, keeping the last four digits of its number,
      after clearing the other defaults when it is the default one. A default card for a user
      with no card list yet fails in the store, and the answer is the generic failure. */
  method AddCreditCard(db: Database, caller: Option<Session>, cardNumber: string, cardholderName: string,
                       expMonth: string, expYear: string, cvc: string, isDefault: bool, reply: CardReply,
                       cardId: nat, now: Time)
    returns (r: Outcome)
    requires db.Valid()
    modifies db`users
    ensures db.Valid()
    ensures caller.None? ==> r == Failure(NotLoggedIn)
    ensures caller.Some? && (cardNumber == "" || cardholderName == "" || expMonth == "" || expYear == "" || cvc == "") ==>
                  r == Failure(FieldsRequired)
    ensures r == Success <==>
              && caller.Some? && cardNumber != "" && cardholderName != "" && expMonth != "" && expYear != "" && cvc != ""
              && reply.CardCreated? && !CardDefaultUpdateFails(old(db.users), caller.value.userId, isDefault)
    ensures caller.Some? && cardNumber != "" && cardholderName != "" && expMonth != "" && expYear != "" && cvc != "" ==>
                  (reply.CardDeclined? ==> r == Failure(if reply.message != "" then reply.message else CardDeclinedMessage))
                  && (reply.CardFailed? ==> r == Failure(CardFailedMessage))
                  && (reply.CardCreated? && CardDefaultUpdateFails(old(db.users), caller.value.userId, isDefault) ==>
                        r == Failure(CardFailedMessage))
    ensures r.Failure? || caller.value.userId !in old(db.users) ==> db.users == old(db.users)
    ensures r == Success && caller.value.userId in old(db.users) ==>
              var u := caller.value.userId;
              var card := CreditCard(cardId, u, reply.paymentMethodId, LastChars(cardNumber, 4),
                                     if reply.brand != "" then reply.brand else "unknown",
                                     expMonth, expYear, cardholderName, isDefault, now);
              db.users == old(db.users)[u := old(db.users)[u].(creditCards :=
                Some(AddEntry(OrEmpty(old(db.users)[u].creditCards), card, CardIsDefault, UnsetCard)))]
  {
    if caller.None? {
      return Failure(NotLoggedIn);
    }
    if cardNumber == "" || cardholderName == "" || expMonth == "" || expYear == "" || cvc == "" {
      return Failure(FieldsRequired);
    }
    match reply
    case CardDeclined(message) =>
      return Failure(if message != "" then message else CardDeclinedMessage);
    case CardFailed =>
      return Failure(CardFailedMessage);
    case CardCreated(paymentMethodId, brand) =>
      var u := caller.value.userId;
      var stored := StoreCard(db, u, CreditCard(cardId, u, paymentMethodId, LastChars(cardNumber, 4),
                                                if brand != "" then brand else "unknown",
                                                expMonth, expYear, cardholderName, isDefault, now));
      if !stored {
        return Failure(CardFailedMessage);
      }
      return Success;
  }

  /** `addFundsToWallet`: a positive amount is added to the caller's balance and recorded as one
      completed deposit. The deposit is recorded even when no stored user has the caller's id. */
  method AddFundsToWallet(db: Database, caller: Option<Session>, amount: real, via: string, sourceId: string, now: Time)
    returns (r: Outcome)
    requires db.Valid()
    modifies db`users, db`walletEntries
    ensures db.Valid()
    ensures caller.None? ==> r == Failure(NotLoggedIn)
    ensures caller.Some? && amount <= 0.0 ==> r == Failure(NonPositiveAmount)
    ensures r == Success <==> caller.Some? && amount > 0.0
    ensures r.Failure? ==> db.users == old(db.users) && db.walletEntries == old(db.walletEntries)
    ensures r == Success ==>
              var u := caller.value.userId;
              && db.users == Credit(old(db.users), u, amount)
              && db.walletEntries == old(db.walletEntries) +
                   [WalletEntry(u, amount, Deposit, via, sourceId, EntryCompleted, "Wallet funding via " + via, now)]
  {
    if caller.None? {
      return Failure(NotLoggedIn);
    }
    if amount <= 0.0 {
      return Failure(NonPositiveAmount);
    }
    var u := caller.value.userId;
    db.users := Credit(db.users, u, amount);
    db.walletEntries := db.walletEntries +
      [WalletEntry(u, amount, Deposit, via, sourceId, EntryCompleted, "Wallet funding via " + via, now)];
    return Success;
  }

  /** `withdrawFromWallet`: a positive amount no larger than the balance is taken off it, so the
      balance stays non-negative; one processing withdrawal is recorded, and one withdrawal
      request that points at it. */
  method WithdrawFromWallet(db: Database, caller: Option<Session>, amount: real, via: string,
                            destinationId: string, now: Time)
    returns (r: Outcome)
    requires db.Valid()
    modifies db`users, db`walletEntries, db`withdrawals
    ensures db.Valid()
    ensures caller.None? ==> r == Failure(NotLoggedIn)
    ensures caller.Some? && amount <= 0.0 ==> r == Failure(NonPositiveAmount)
    ensures caller.Some? && amount > 0.0 && caller.value.userId !in old(db.users) ==> r == Failure(UserNotFound)
    ensures caller.Some? && amount > 0.0 && caller.value.userId in old(db.users)
              && old(db.users)[caller.value.userId].walletBalance < amount ==>
                  r == Failure(InsufficientFunds)
    ensures r == Success <==>
              && caller.Some? && amount > 0.0 && caller.value.userId in old(db.users)
              && old(db.users)[caller.value.userId].walletBalance >= amount
    ensures r.Failure? ==>
              db.users == old(db.users) && db.walletEntries == old(db.walletEntries) && db.withdrawals == old(db.withdrawals)
    ensures r == Success ==>
              var u := caller.value.userId;
              && db.users == Credit(old(db.users), u, -amount)
              && 0.0 <= db.users[u].walletBalance == old(db.users)[u].walletBalance - amount
              && db.walletEntries == old(db.walletEntries) +
                   [WalletEntry(u, amount, Withdrawal, via, destinationId, EntryProcessing, "Withdrawal to " + via, now)]
              && db.withdrawals == old(db.withdrawals) +
                   [WithdrawalRequest(u, |old(db.walletEntries)|, amount, via, destinationId, EntryProcessing, now)]
  {
    if caller.None? {
      return Failure(NotLoggedIn);
    }
    if amount <= 0.0 {
      return Failure(NonPositiveAmount);
    }
    var u := caller.value.userId;
    if u !in db.users {
      return Failure(UserNotFound);
    }
    if db.users[u].walletBalance < amount {
      return Failure(InsufficientFunds);
    }
    RecordWithdrawal(db, u, amount, via, destinationId, now);
    return Success;
  }

  /** The writes of `withdrawFromWallet` once the balance has been checked: the balance goes down
      by `amount`, and a withdrawal entry and a request pointing at it are recorded. */
  method RecordWithdrawal(db: Database, u: UserId, amount: real, via: string, destinationId: string, now: Time)
    requires db.Valid()
    modifies db`users, db`walletEntries, db`withdrawals
    ensures db.Valid()
    ensures db.users == Credit(old(db.users), u, -amount)
    ensures db.walletEntries == old(db.walletEntries) +
              [WalletEntry(u, amount, Withdrawal, via, destinationId, EntryProcessing, "Withdrawal to " + via, now)]
    ensures db.withdrawals == old(db.withdrawals) +
              [WithdrawalRequest(u, |old(db.walletEntries)|, amount, via, destinationId, EntryProcessing, now)]
  {
    var entry := WalletEntry(u, amount, Withdrawal, via, destinationId, EntryProcessing, "Withdrawal to " + via, now);
    var request := WithdrawalRequest(u, |db.walletEntries|, amount, via, destinationId, EntryProcessing, now);
    CreditKeepsUsersValid(db.users, u, -amount);
    AppendWithdrawalKeepsBacked(db.withdrawals, db.walletEntries, request, entry);
    db.users := Credit(db.users, u, -amount);
    db.walletEntries := db.walletEntries + [entry];
    db.withdrawals := db.withdrawals + [request];
  }

  /** The sort key of `sort({ createdAt: -1 })`. */
  function NewestFirst(e: WalletEntry): int
  {
    -(e.createdAt as int)
  }

  /** The wallet entries that belong to user `u`. */
  function OwnedBy(u: UserId): WalletEntry -> bool
  {
    (e: WalletEntry) => e.userId == u
  }

  /** The first ten of `u`'s entries once sorted newest first. */
  function LatestEntries(entries: seq<WalletEntry>, u: UserId): seq<WalletEntry>
  {
    Seqs.Take(Seqs.SortBy(Seqs.Filter(entries, OwnedBy(u)), NewestFirst), 10)
  }

  /** The latest entries are at most ten of `u`'s own entries, newest first, and any entry of
      `u` left out is no newer than every one kept, which leaves out nothing unless ten are kept. */
  lemma LatestEntriesAreNewest(entries: seq<WalletEntry>, u: UserId)
    ensures |LatestEntries(entries, u)| <= 10
    ensures forall e :: e in LatestEntries(entries, u) ==> e in entries && e.userId == u
    ensures forall i, j :: 0 <= i < j < |LatestEntries(entries, u)| ==>
              LatestEntries(entries, u)[i].createdAt >= LatestEntries(entries, u)[j].createdAt
    ensures forall e, x :: e in entries && e.userId == u && e !in LatestEntries(entries, u) && x in LatestEntries(entries, u) ==>
              |LatestEntries(entries, u)| == 10 && x.createdAt >= e.createdAt
    ensures var n := |set k | 0 <= k < |entries| && entries[k].userId == u|;
            |LatestEntries(entries, u)| == if n < 10 then n else 10
    ensures multiset(LatestEntries(entries, u)) <= multiset(entries)
  {
    LatestEntriesSize(entries, u);
    LatestEntriesStored(entries, u);
    LatestEntriesOwn(entries, u);
    LatestEntriesOrdered(entries, u);
    LatestEntriesKeepNewest(entries, u);
  }

  /** The number of `u`'s entries, counted by position. */
  lemma OwnEntriesCount(entries: seq<WalletEntry>, u: UserId)
    ensures Seqs.Count(entries, OwnedBy(u)) == |set k | 0 <= k < |entries| && entries[k].userId == u|
  {
    Seqs.CountIsPositions(entries, OwnedBy(u));
    assert Seqs.Positions(entries, OwnedBy(u)) == set k | 0 <= k < |entries| && entries[k].userId == u;
  }

  lemma LatestEntriesSize(entries: seq<WalletEntry>, u: UserId)
    ensures var n := |set k | 0 <= k < |entries| && entries[k].userId == u|;
            |LatestEntries(entries, u)| == if n < 10 then n else 10
  {
    OwnEntriesCount(entries, u);
  }

  lemma LatestEntriesStored(entries: seq<WalletEntry>, u: UserId)
    ensures multiset(LatestEntries(entries, u)) <= multiset(entries)
  {
    var mine := Seqs.Filter(entries, OwnedBy(u));
    Seqs.FilterSubMultiset(entries, OwnedBy(u));
    Seqs.TakeSubMultiset(Seqs.SortBy(mine, NewestFirst), 10);
  }

  lemma LatestEntriesOwn(entries: seq<WalletEntry>, u: UserId)
    ensures forall e :: e in LatestEntries(entries, u) ==> e in entries && e.userId == u
  {
    var mine := Seqs.Filter(entries, OwnedBy(u));
    var sorted := Seqs.SortBy(mine, NewestFirst);
    var r := Seqs.Take(sorted, 10);
    assert r == LatestEntries(entries, u);
    forall e | e in r ensures e in entries && e.userId == u {
      assert e in multiset(sorted);
    }
  }

  lemma LatestEntriesOrdered(entries: seq<WalletEntry>, u: UserId)
    ensures forall i, j :: 0 <= i < j < |LatestEntries(entries, u)| ==>
              LatestEntries(entries, u)[i].createdAt >= LatestEntries(entries, u)[j].createdAt
  {
    var sorted := Seqs.SortBy(Seqs.Filter(entries, OwnedBy(u)), NewestFirst);
    var r := Seqs.Take(sorted, 10);
    assert r == LatestEntries(entries, u);
    forall i, j | 0 <= i < j < |r| ensures r[i].createdAt >= r[j].createdAt {
      assert r[i] == sorted[i] && r[j] == sorted[j];
      assert NewestFirst(sorted[i]) <= NewestFirst(sorted[j]);
    }
  }

  lemma LatestEntriesKeepNewest(entries: seq<WalletEntry>, u: UserId)
    ensures forall e, x :: e in entries && e.userId == u && e !in LatestEntries(entries, u) && x in LatestEntries(entries, u) ==>
              |LatestEntries(entries, u)| == 10 && x.createdAt >= e.createdAt
  {
    var mine := Seqs.Filter(entries, OwnedBy(u));
    var sorted := Seqs.SortBy(mine, NewestFirst);
    var r := Seqs.Take(sorted, 10);
    assert r == LatestEntries(entries, u);
    Seqs.TakeKeepsSmallestKeys(sorted, 10, NewestFirst);
    forall e, x | e in entries && e.userId == u && e !in r && x in r
      ensures |r| == 10 && x.createdAt >= e.createdAt
    {
      assert OwnedBy(u)(e);
      assert e in multiset(mine);
      assert e in sorted;
      assert NewestFirst(x) <= NewestFirst(e);
    }
  }

  /** `getWalletTransactions`: the caller's ten newest entries, or all of them when there are
      fewer, newest first, leaving out only entries no newer than the ones returned. */
  function GetWalletTransactions(entries: seq<WalletEntry>, caller: Option<Session>): (r: Result<seq<WalletEntry>>)
    ensures caller.None? ==> r == Err(NotLoggedIn)
    ensures caller.Some? ==> r.Ok? && |r.value| <= 10
    ensures r.Ok? ==> forall e :: e in r.value ==> e in entries && e.userId == caller.value.userId
    ensures r.Ok? ==> forall i, j :: 0 <= i < j < |r.value| ==> r.value[i].createdAt >= r.value[j].createdAt
    ensures r.Ok? ==> forall e, x :: e in entries && e.userId == caller.value.userId && e !in r.value && x in r.value ==>
              |r.value| == 10 && x.createdAt >= e.createdAt
    ensures r.Ok? ==>
              var n := |set k | 0 <= k < |entries| && entries[k].userId == caller.value.userId|;
              |r.value| == if n < 10 then n else 10
    ensures r.Ok? ==> multiset(r.value) <= multiset(entries)
  {
    if caller.None? then Err(NotLoggedIn)
    else
      LatestEntriesAreNewest(entries, caller.value.userId);
      Ok(LatestEntries(entries, caller.value.userId))
  }

  /** `processStripePayment`: the caller's wallet is credited with the amount of an intent only
      when the gateway reports it succeeded and it was created by this caller's wallet top-up.
      `intent == None` stands for a retrieval that threw; its own message is not modelled. */
  method ProcessStripePayment(db: Database, caller: Option<Session>, intent: Option<PaymentIntent>, now: Time)
    returns (r: Outcome)
    requires db.Valid()
    modifies db`users, db`walletEntries
    ensures db.Valid()
    ensures caller.None? ==> r == Failure(NotLoggedIn)
    ensures caller.Some? && intent.None? ==> r == Failure("Failed to process payment")
    ensures caller.Some? && intent.Some? && !intent.value.succeeded ==> r == Failure("Payment has not been completed")
    ensures caller.Some? && intent.Some? && intent.value.succeeded && !FundsWalletOf(intent.value, caller.value.userId) ==>
                  r == Failure("Invalid payment intent")
    ensures caller.Some? && intent.Some? && intent.value.succeeded && FundsWalletOf(intent.value, caller.value.userId)
            && intent.value.amountCents == 0 ==>
                  r == Failure(NonPositiveAmount)
    ensures r == Success <==>
              && caller.Some? && intent.Some? && intent.value.succeeded
              && FundsWalletOf(intent.value, caller.value.userId) && intent.value.amountCents > 0
    ensures r.Failure? ==> db.users == old(db.users) && db.walletEntries == old(db.walletEntries)
    ensures r == Success ==>
              var u := caller.value.userId;
              var amount := CentsToAmount(intent.value.amountCents);
              && db.users == Credit(old(db.users), u, amount)
              && db.walletEntries == old(db.walletEntries) +
                   [WalletEntry(u, amount, Deposit, "card", intent.value.paymentMethodId, EntryCompleted,
                                "Wallet funding via card", now)]
  {
    if caller.None? {
      return Failure(NotLoggedIn);
    }
    if intent.None? {
      return Failure("Failed to process payment");
    }
    var pi := intent.value;
    if !pi.succeeded {
      return Failure("Payment has not been completed");
    }
    if !FundsWalletOf(pi, caller.value.userId) {
      return Failure("Invalid payment intent");
    }
    assert "Wallet funding via " + "card" == "Wallet funding via card";
    r := AddFundsToWallet(db, caller, CentsToAmount(pi.amountCents), "card", pi.paymentMethodId, now);
  }
}
