/** Account management: the profile, the password, and deleting the account. Password hashing
    and comparison are outside the model: their verdicts arrive as parameters. */
module UserActions {
  import opened Wrappers
  import opened Models
  import opened Store
  import opened AuthActions
  import Seqs

  const NameAndEmailRequired := "Name and email are required"
  const EmailIsTaken := "Email is already taken"
  const FieldsRequired := "All fields are required"
  const PasswordsDiffer := "New passwords do not match"
  const PasswordTooShort := "Password must be at least 8 characters long"
  const UserNotFound := "User not found"
  const WrongCurrentPassword := "Current password is incorrect"
  const ConfirmationRequired := "Password and confirmation are required"
  const WrongPassword := "Password is incorrect"
  const OpenTransactionsRemain :=
    "Cannot delete account with active transactions. Please complete or cancel all transactions first."

  /** Some user other than `u` has email `e`: the lookup with `_id: { $ne: u }`. */
  predicate EmailTakenByOther(users: map<UserId, User>, e: string, u: UserId)
  {
    exists c :: c in users && c != u && users[c].email == e
  }

  /** `updateUserProfile`: name and email are required, and a changed email must not belong to
      another user; then the caller's name and email are replaced. */
  method UpdateUserProfile(db: Database, caller: Option<Session>, name: string, email: string) returns (r: Outcome)
    requires db.Valid()
    requires caller.Some? ==> SessionCurrent(db.users, caller.value)
    modifies db`users
    ensures db.Valid()
    ensures caller.None? ==> r == Failure(NotLoggedIn)
    ensures caller.Some? && (name == "" || email == "") ==> r == Failure(NameAndEmailRequired)
    ensures caller.Some? && name != "" && email != "" && email != caller.value.email
            && EmailTakenByOther(old(db.users), email, caller.value.userId) ==>
              r == Failure(EmailIsTaken)
    ensures r == Success <==>
              && caller.Some? && name != "" && email != ""
              && (email == caller.value.email || !EmailTakenByOther(old(db.users), email, caller.value.userId))
    ensures r.Failure? ==> db.users == old(db.users)
    ensures r == Success ==>
              var u := caller.value.userId;
              db.users == old(db.users)[u := old(db.users)[u].(name := name, email := email)]
  {
    if caller.None? {
      return Failure(NotLoggedIn);
    }
    if name == "" || email == "" {
      return Failure(NameAndEmailRequired);
    }
    var u := caller.value.userId;
    if email != caller.value.email && EmailTakenByOther(db.users, email, u) {
      return Failure(EmailIsTaken);
    }
    var users := db.users;
    var user := users[u].(name := name, email := email);
    var users' := users[u := user];
    forall a, b | a in users' && b in users' && users'[a].email == users'[b].email ensures a == b {
      if a != u && b != u {
        assert users'[a] == users[a] && users'[b] == users[b];
      }
    }
    db.users := users';
    return Success;
  }

  /** The checks of `changePassword` made before the store is read, in their order. */
  function PasswordFormError(currentPassword: string, newPassword: string, confirmPassword: string): (r: Option<string>)
    ensures currentPassword == "" || newPassword == "" || confirmPassword == "" ==> r == Some(FieldsRequired)
    ensures r.None? <==> currentPassword != "" && newPassword != "" && newPassword == confirmPassword && |newPassword| >= 8
    ensures currentPassword != "" && newPassword != "" && confirmPassword != "" && newPassword != confirmPassword ==> r == Some(PasswordsDiffer)
    ensures currentPassword != "" && newPassword != "" && newPassword == confirmPassword && |newPassword| < 8 ==> r == Some(PasswordTooShort)
  {
    if currentPassword == "" || newPassword == "" || confirmPassword == "" then Some(FieldsRequired)
    else if newPassword != confirmPassword then Some(PasswordsDiffer)
    else if |newPassword| < 8 then Some(PasswordTooShort)
    else None
  }

  /** `changePassword`: after the form checks, the caller must exist and `matches` must accept the
      current password against the stored hash; then the stored hash becomes `newHash`, the hash
      of the new password. */
  method ChangePassword(db: Database, caller: Option<Session>, currentPassword: string, newPassword: string, confirmPassword: string,
                        matches: (string, string) -> bool, newHash: string)
    returns (r: Outcome)
    requires db.Valid()
    modifies db`users
    ensures db.Valid()
    ensures caller.None? ==> r == Failure(NotLoggedIn)
    ensures caller.Some? && PasswordFormError(currentPassword, newPassword, confirmPassword).Some? ==>
              r == Failure(PasswordFormError(currentPassword, newPassword, confirmPassword).value)
    ensures caller.Some? && PasswordFormError(currentPassword, newPassword, confirmPassword).None? && caller.value.userId !in old(db.users) ==>
              r == Failure(UserNotFound)
    ensures caller.Some? && PasswordFormError(currentPassword, newPassword, confirmPassword).None? && caller.value.userId in old(db.users)
            && !matches(currentPassword, old(db.users)[caller.value.userId].password) ==>
              r == Failure(WrongCurrentPassword)
    ensures r == Success <==>
              && caller.Some? && PasswordFormError(currentPassword, newPassword, confirmPassword).None? && caller.value.userId in old(db.users)
              && matches(currentPassword, old(db.users)[caller.value.userId].password)
    ensures r.Failure? ==> db.users == old(db.users)
    ensures r == Success ==>
              var u := caller.value.userId;
              db.users == old(db.users)[u := old(db.users)[u].(password := newHash)]
  {
    if caller.None? {
      return Failure(NotLoggedIn);
    }
    var error := PasswordFormError(currentPassword, newPassword, confirmPassword);
    if error.Some? {
      return Failure(error.value);
    }
    var u := caller.value.userId;
    if u !in db.users {
      return Failure(UserNotFound);
    }
    if !matches(currentPassword, db.users[u].password) {
      return Failure(WrongCurrentPassword);
    }
    ReplaceUserKeepsUsersValid(db.users, u, db.users[u].(password := newHash));
    db.users := db.users[u := db.users[u].(password := newHash)];
    return Success;
  }

  /** The transactions that keep user `u` from leaving: those `u` buys or sells in that are
      active, pending or disputed. */
  function Blocking(u: UserId): Transaction -> bool
  {
    (t: Transaction) => IsParticipant(t, u) && (t.status == Active || t.status == Pending || t.status == Disputed)
  }

  /** The `countDocuments` of `deleteAccount` is zero exactly when every transaction of `u` is
      completed or cancelled. */
  lemma NoBlockingIffSettled(txs: seq<Transaction>, u: UserId)
    ensures Seqs.Count(txs, Blocking(u)) == 0 <==>
              forall t :: t in txs && IsParticipant(t, u) ==> t.status == Completed || t.status == Cancelled
  {
    Seqs.CountZeroIff(txs, Blocking(u));
  }

  /** `deleteAccount`: the caller must type a password and the word DELETE, exist, give the right
      password according to `matches`, and have no active, pending or disputed transaction; then
      exactly the caller's record is removed. */
  method DeleteAccount(db: Database, caller: Option<Session>, password: string, confirmation: string,
                       matches: (string, string) -> bool)
    returns (r: Outcome)
    requires db.Valid()
    modifies db`users
    ensures db.Valid()
    ensures caller.None? ==> r == Failure(NotLoggedIn)
    ensures caller.Some? && (password == "" || confirmation != "DELETE") ==> r == Failure(ConfirmationRequired)
    ensures caller.Some? && password != "" && confirmation == "DELETE" && caller.value.userId !in old(db.users) ==>
              r == Failure(UserNotFound)
    ensures caller.Some? && password != "" && confirmation == "DELETE" && caller.value.userId in old(db.users)
            && !matches(password, old(db.users)[caller.value.userId].password) ==>
              r == Failure(WrongPassword)
    ensures caller.Some? && password != "" && confirmation == "DELETE" && caller.value.userId in old(db.users)
            && matches(password, old(db.users)[caller.value.userId].password)
            && Seqs.Count(db.transactions, Blocking(caller.value.userId)) > 0 ==>
              r == Failure(OpenTransactionsRemain)
    ensures r == Success <==>
              && caller.Some? && password != "" && confirmation == "DELETE" && caller.value.userId in old(db.users)
              && matches(password, old(db.users)[caller.value.userId].password)
              && forall t :: t in db.transactions && IsParticipant(t, caller.value.userId) ==>
                   t.status == Completed || t.status == Cancelled
    ensures r.Failure? ==> db.users == old(db.users)
    ensures r == Success ==> db.users == old(db.users) - {caller.value.userId}
  {
    if caller.None? {
      return Failure(NotLoggedIn);
    }
    if password == "" || confirmation != "DELETE" {
      return Failure(ConfirmationRequired);
    }
    var u := caller.value.userId;
    if u !in db.users {
      return Failure(UserNotFound);
    }
    if !matches(password, db.users[u].password) {
      return Failure(WrongPassword);
    }
    NoBlockingIffSettled(db.transactions, u);
    if Seqs.Count(db.transactions, Blocking(u)) > 0 {
      return Failure(OpenTransactionsRemain);
    }
    db.users := db.users - {u};
    return Success;
  }
}
