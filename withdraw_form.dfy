/** The wallet's withdraw form: the amount field's input filter, the parse of the amount, the
    checks made before the withdrawal is requested, and when the submit button is enabled. */
module WithdrawFormModel {
  import opened Wrappers
  import opened Models
  import opened Store
  import PaymentActions

  const ToBank := "bank"
  const InvalidAmount := "Please enter a valid amount"
  const ExceedsBalance := "Withdrawal amount exceeds your wallet balance"
  const NoAccountSelected := "Please select a bank account"
  /** The success text the withdrawal action answers with. */
  const WithdrawalStarted := "Withdrawal initiated and is being processed. This typically takes 1-3 business days."

  predicate IsDigit(c: char)
  {
    '0' <= c <= '9'
  }

  predicate AllDigits(s: string)
  {
    forall i :: 0 <= i < |s| ==> IsDigit(s[i])
  }

  /** The position of the first '.', or the length when there is none. */
  function DotIndex(s: string): (k: nat)
    ensures k <= |s|
    ensures k < |s| ==> s[k] == '.'
    ensures forall i :: 0 <= i < k ==> s[i] != '.'
  {
    if s == [] || s[0] == '.' then 0 else 1 + DotIndex(s[1..])
  }

  /** The strings `^\d*\.?\d{0,2}$` describes: digits up to the first dot, and after it, if there
      is one, at most two digits. */
  predicate AmountPattern(s: string)
  {
    var k := DotIndex(s);
    AllDigits(s[..k]) && (k < |s| ==> AllDigits(s[k + 1..]) && |s| - (k + 1) <= 2)
  }

  /** The regular expression run left to right: digits, then at most one dot, then digits, no
      more than two of them once the dot has been read. */
  function Scan(s: string, afterDot: bool, decimals: nat): bool
  {
    if s == [] then true
    else if IsDigit(s[0]) then
      if afterDot then decimals < 2 && Scan(s[1..], true, decimals + 1) else Scan(s[1..], false, 0)
    else if s[0] == '.' && !afterDot then Scan(s[1..], true, 0)
    else false
  }

  /** A string is all digits exactly when its first character is a digit and the rest are. */
  lemma AllDigitsCons(s: string)
    requires s != []
    ensures AllDigits(s) <==> IsDigit(s[0]) && AllDigits(s[1..])
  {
    if IsDigit(s[0]) && AllDigits(s[1..]) {
      forall i | 0 < i < |s| ensures IsDigit(s[i]) {
        assert s[i] == s[1..][i - 1];
      }
    }
  }

  /** After the dot, the scan accepts exactly the digit strings that keep the decimals at two or fewer. */
  lemma {:induction false} ScanAfterDot(s: string, decimals: nat)
    requires decimals <= 2
    ensures Scan(s, true, decimals) <==> AllDigits(s) && decimals + |s| <= 2
  {
    if s != [] {
      AllDigitsCons(s);
      if IsDigit(s[0]) && decimals < 2 {
        ScanAfterDot(s[1..], decimals + 1);
      }
    }
  }

  /** The scan accepts exactly the strings of the pattern. */
  lemma {:induction false} ScanMatchesPattern(s: string)
    ensures Scan(s, false, 0) <==> AmountPattern(s)
  {
    if s == [] {
    } else if IsDigit(s[0]) {
      ScanMatchesPattern(s[1..]);
      var t := s[1..];
      var k := DotIndex(t);
      assert DotIndex(s) == k + 1;
      assert s[..k + 1][1..] == t[..k];
      AllDigitsCons(s[..k + 1]);
      if k < |t| {
        assert s[k + 2..] == t[k + 1..];
      }
    } else if s[0] == '.' {
      ScanAfterDot(s[1..], 0);
    } else {
      assert DotIndex(s) >= 1 && !IsDigit(s[..DotIndex(s)][0]);
    }
  }

  /** The value of a string of decimal digits. */
  function DigitsValue(s: string): nat
    requires AllDigits(s)
  {
    if s == [] then 0 else 10 * DigitsValue(s[..|s| - 1]) + (s[|s| - 1] as int - '0' as int)
  }

  function Pow10(n: nat): (p: nat)
    ensures p >= 1
  {
    if n == 0 then 1 else 10 * Pow10(n - 1)
  }

  /** `k` digits make a number below 10 to the `k`. */
  lemma {:induction false} DigitsValueBelow(s: string)
    requires AllDigits(s)
    ensures DigitsValue(s) < Pow10(|s|)
  {
    if s != [] {
      DigitsValueBelow(s[..|s| - 1]);
    }
  }

  /** The integer part of an amount: the digits before the dot. */
  function Whole(s: string): nat
    requires AmountPattern(s)
  {
    DigitsValue(s[..DotIndex(s)])
  }

  /** `Number.parseFloat` on a string of the pattern: `None` (NaN) for a string with no digit at
      all, which is only "" and "."; otherwise the integer part plus the decimals, which lies
      between the integer part and the next integer. */
  function ParseAmount(s: string): (r: Option<real>)
    requires AmountPattern(s)
    ensures r.None? <==> s == "" || s == "."
    ensures r.Some? ==> Whole(s) as real <= r.value < Whole(s) as real + 1.0
  {
    var k := DotIndex(s);
    var frac := if k < |s| then s[k + 1..] else "";
    if k == 0 && |frac| == 0 then
      assert k < |s| ==> s == ".";
      None
    else
      DigitsValueBelow(frac);
      FractionBelowOne(DigitsValue(frac), Pow10(|frac|));
      Some(DigitsValue(s[..k]) as real + DigitsValue(frac) as real / Pow10(|frac|) as real)
  }

  lemma FractionBelowOne(x: nat, p: nat)
    requires x < p
    ensures 0.0 <= x as real / p as real < 1.0
  {
    var q := x as real / p as real;
    assert q * p as real == x as real;
    assert (1.0 - q) * p as real == p as real - x as real;
  }

  /** "." gets through the input filter, yet it is no amount. */
  lemma DotPassesFilterButIsNoAmount()
    ensures Scan(".", false, 0) && AmountPattern(".") && ParseAmount(".").None?
  {
    ScanMatchesPattern(".");
  }

  /** The checks `handleWithdraw` makes before it requests anything, in their order: the error
      it shows, or `None` when the withdrawal is requested. */
  function FormError(amount: string, walletBalance: real, selectedAccount: string): (r: Option<string>)
    requires AmountPattern(amount)
    ensures var v := ParseAmount(amount);
            && (v.None? || v.value <= 0.0 ==> r == Some(InvalidAmount))
            && (v.Some? && 0.0 < v.value && v.value > walletBalance ==> r == Some(ExceedsBalance))
            && (v.Some? && 0.0 < v.value <= walletBalance && selectedAccount == "" ==> r == Some(NoAccountSelected))
            && (r.None? <==> v.Some? && 0.0 < v.value <= walletBalance && selectedAccount != "")
  {
    var v := ParseAmount(amount);
    if v.None? || v.value <= 0.0 then Some(InvalidAmount)
    else if v.value > walletBalance then Some(ExceedsBalance)
    else if selectedAccount == "" then Some(NoAccountSelected)
    else None
  }

  /** When the submit button is disabled (`disabled={...}`). */
  predicate SubmitDisabled(loading: bool, amount: string, walletBalance: real, accountCount: nat)
    requires AmountPattern(amount)
  {
    var v := ParseAmount(amount);
    loading || amount == "" || v.None? || v.value <= 0.0 || v.value > walletBalance || accountCount == 0
  }

  /** The form's state. `walletBalance` and `accountIds` are the properties it was given. */
  class WithdrawForm {
    const walletBalance: real
    const accountIds: seq<string>
    var amount: string
    var selectedAccount: string
    var loading: bool
    var error: Option<string>
    var success: Option<string>

    /** The amount always passes the input filter, and the selected account is one of the
        accounts, or "" when there are none. */
    ghost predicate Valid()
      reads this
    {
      && AmountPattern(amount)
      && (forall i :: 0 <= i < |accountIds| ==> accountIds[i] != "")
      && (if accountIds == [] then selectedAccount == "" else selectedAccount in accountIds)
    }

    /** The initial state: no amount, and the first account selected, or "" when there is none.
        Account ids are never empty. */
    constructor (walletBalance: real, accountIds: seq<string>)
      requires forall i :: 0 <= i < |accountIds| ==> accountIds[i] != ""
      ensures Valid()
      ensures this.walletBalance == walletBalance && this.accountIds == accountIds
      ensures amount == "" && !loading && error.None? && success.None?
      ensures selectedAccount == if accountIds == [] then "" else accountIds[0]
    {
      this.walletBalance := walletBalance;
      this.accountIds := accountIds;
      amount := "";
      selectedAccount := if accountIds == [] then "" else accountIds[0];
      loading := false;
      error := None;
      success := None;
    }

    /** `handleAmountChange`: a value that passes the filter replaces the amount; any other
        keystroke leaves it as it was. */
    method HandleAmountChange(value: string)
      requires Valid()
      modifies this`amount
      ensures Valid()
      ensures AmountPattern(value) ==> amount == value
      ensures !AmountPattern(value) ==> amount == old(amount)
    {
      ScanMatchesPattern(value);
      if Scan(value, false, 0) || value == "" {
        amount := value;
      }
    }

    /** `onValueChange` of the account choice. */
    method SelectAccount(id: string)
      requires Valid() && id in accountIds
      modifies this`selectedAccount
      ensures Valid() && selectedAccount == id
    {
      selectedAccount := id;
    }

    /** The part of `handleWithdraw` after its checks pass: the withdrawal of the parsed amount
        to the selected account is requested, and its answer shown. */
    method Submit(db: Database, caller: Option<Session>, now: Time)
      requires Valid() && db.Valid() && FormError(amount, walletBalance, selectedAccount).None?
      modifies this`loading, this`error, this`success, db`users, db`walletEntries, db`withdrawals
      ensures Valid() && db.Valid() && !loading
      ensures var v := ParseAmount(amount).value;
              && (success.Some? <==> error.None?)
              && (success.Some? <==>
                    caller.Some? && caller.value.userId in old(db.users) && old(db.users)[caller.value.userId].walletBalance >= v)
              && (success.Some? ==>
                    && success == Some(WithdrawalStarted)
                    && db.users == Credit(old(db.users), caller.value.userId, -v)
                    && db.walletEntries == old(db.walletEntries) +
                         [WalletEntry(caller.value.userId, v, Withdrawal, ToBank, selectedAccount, EntryProcessing,
                                      "Withdrawal to " + ToBank, now)]
                    && db.withdrawals == old(db.withdrawals) +
                         [WithdrawalRequest(caller.value.userId, |old(db.walletEntries)|, v, ToBank, selectedAccount,
                                            EntryProcessing, now)])
              && (error.Some? ==>
                    db.users == old(db.users) && db.walletEntries == old(db.walletEntries) && db.withdrawals == old(db.withdrawals))
    {
      var r := PaymentActions.WithdrawFromWallet(db, caller, ParseAmount(amount).value, ToBank, selectedAccount, now);
      ghost var users, entries, withdrawals := db.users, db.walletEntries, db.withdrawals;
      if r.Failure? {
        error, success, loading := Some(r.error), None, false;
      } else {
        error, success, loading := None, Some(WithdrawalStarted), false;
      }
      assert db.users == users && db.walletEntries == entries && db.withdrawals == withdrawals;
    }

    /** `handleWithdraw`: checks, in this order, that the amount is a number above zero, that it is
        within the balance the form was given and that an account is selected; only then is the
        withdrawal requested, as a bank withdrawal to the selected account. `submitted` tells
        whether it was. Afterwards the form is not loading and shows the error or the success. */
    method HandleWithdraw(db: Database, caller: Option<Session>, now: Time) returns (submitted: bool)
      requires Valid() && db.Valid()
      modifies this`loading, this`error, this`success, db`users, db`walletEntries, db`withdrawals
      ensures Valid() && db.Valid() && !loading
      ensures submitted <==> FormError(amount, walletBalance, selectedAccount).None?
      ensures !submitted ==>
                && error == FormError(amount, walletBalance, selectedAccount) && success.None?
                && db.users == old(db.users) && db.walletEntries == old(db.walletEntries) && db.withdrawals == old(db.withdrawals)
      ensures submitted ==>
                var v := ParseAmount(amount).value;
                && (success.Some? <==> error.None?)
                && (success.Some? <==>
                      caller.Some? && caller.value.userId in old(db.users) && old(db.users)[caller.value.userId].walletBalance >= v)
                && (success.Some? ==>
                      && success == Some(WithdrawalStarted)
                      && db.users == Credit(old(db.users), caller.value.userId, -v)
                      && db.walletEntries == old(db.walletEntries) +
                           [WalletEntry(caller.value.userId, v, Withdrawal, ToBank, selectedAccount, EntryProcessing,
                                        "Withdrawal to " + ToBank, now)]
                      && db.withdrawals == old(db.withdrawals) +
                           [WithdrawalRequest(caller.value.userId, |old(db.walletEntries)|, v, ToBank, selectedAccount,
                                              EntryProcessing, now)])
                && (error.Some? ==>
                      db.users == old(db.users) && db.walletEntries == old(db.walletEntries) && db.withdrawals == old(db.withdrawals))
    {
      var check := FormError(amount, walletBalance, selectedAccount);
      if check.Some? {
        error, success, loading := check, None, false;
        return false;
      }
      Submit(db, caller, now);
      return true;
    }
  }

  /** An enabled submit button means every check of `handleWithdraw` passes, so clicking it
      requests the withdrawal. */
  lemma EnabledMeansChecksPass(form: WithdrawForm)
    requires form.Valid()
    requires !SubmitDisabled(false, form.amount, form.walletBalance, |form.accountIds|)
    ensures FormError(form.amount, form.walletBalance, form.selectedAccount).None?
  {
    var ids := form.accountIds;
    assert ids[0] in ids;
  }
}
