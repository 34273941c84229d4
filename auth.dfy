/** Accounts and sessions: sign-up, login, the session lookup and the direct balance update.
    Password hashing and comparison and token signing and verification are outside the model:
    their verdicts arrive as parameters. */
module AuthActions {
  import opened Wrappers
  import opened Models
  import opened Store

  /** The user record `signUp` inserts: an empty wallet, the full trust score of 5, an empty
      list of bank accounts, and no card list and no notification list at all. */
  function NewUser(email: string, passwordHash: string, name: string, role: Role, now: Time): (u: User)
    ensures u.walletBalance == 0.0 && u.trustScore == 5.0
    ensures u.bankAccounts == [] && u.creditCards.None? && u.notifications.None?
    ensures UserWellFormed(u)
  {
    User(email, passwordHash, name, role, now, 0.0, 5.0, [], None, None)
  }

  /** `signUp`: all four fields are required (`role == None` is an empty role field) and the email
      must be new; the user is stored with the hash of the password under the fresh identifier
      `freshId`, which is returned. */
  method SignUp(db: Database, email: string, password: string, name: string, role: Option<Role>,
                passwordHash: string, freshId: UserId, now: Time)
    returns (r: Result<UserId>)
    requires db.Valid()
    requires freshId !in db.users
    modifies db`users
    ensures db.Valid()
    ensures email == "" || password == "" || name == "" || role.None? ==>
              r == Err("All fields are required in auth actipns")
    ensures email != "" && password != "" && name != "" && role.Some? && EmailTaken(old(db.users), email) ==>
              r == Err("User already exists")
    ensures r.Ok? <==>
              email != "" && password != "" && name != "" && role.Some? && !EmailTaken(old(db.users), email)
    ensures r.Err? ==> db.users == old(db.users)
    ensures r.Ok? ==>
              r.value == freshId && db.users == old(db.users)[freshId := NewUser(email, passwordHash, name, role.value, now)]
  {
    if email == "" || password == "" || name == "" || role.None? {
      return Err("All fields are required in auth actipns");
    }
    if EmailTaken(db.users, email) {
      return Err("User already exists");
    }
    db.users := db.users[freshId := NewUser(email, passwordHash, name, role.value, now)];
    return Ok(freshId);
  }

  /** `login`: the user with the given email whose stored hash `matches` the password, according
      to the hash comparison. An unknown email and a wrong password get the same answer, so the
      answer does not tell which emails are registered. */
  function Login(users: map<UserId, User>, email: string, password: string,
                 matches: (string, string) -> bool): (r: Result<UserId>)
    requires EmailsUnique(users)
    ensures email == "" || password == "" ==> r == Err("Email and password are required")
    ensures r.Ok? <==>
              email != "" && password != "" &&
              exists c :: c in users && users[c].email == email && matches(password, users[c].password)
    ensures r.Ok? ==> r.value in users && users[r.value].email == email
    ensures r.Err? && email != "" && password != "" ==> r == Err("Invalid email or password")
  {
    if email == "" || password == "" then Err("Email and password are required")
    else if !EmailTaken(users, email) then Err("Invalid email or password")
    else
      var c :| c in users && users[c].email == email;
      if !matches(password, users[c].password) then Err("Invalid email or password")
      else Ok(c)
  }

  /** `getCurrentUser`: the session of the stored user the token names. `token` is the cookie
      (`None` when it is absent) and `decoded` the user id the token verifies to (`None` when the
      signature or the expiry does not verify). */
  function GetCurrentUser(users: map<UserId, User>, token: Option<string>, decoded: Option<UserId>): (r: Option<Session>)
    ensures r.Some? <==> token.Some? && token.value != "" && decoded.Some? && decoded.value in users
    ensures r.Some? ==>
              && r.value.userId == decoded.value
              && (var u := users[decoded.value]; r.value.email == u.email && r.value.name == u.name && r.value.role == u.role)
  {
    if token.None? || token.value == "" || decoded.None? || decoded.value !in users then None
    else
      var u := users[decoded.value];
      Some(Session(decoded.value, u.email, u.name, u.role))
  }

  /** A session that agrees with the stored record of its user, as every session
      `getCurrentUser` hands out does. */
  predicate SessionCurrent(users: map<UserId, User>, s: Session)
  {
    s.userId in users && s.email == users[s.userId].email && s.name == users[s.userId].name
  }

  /** Every session the lookup returns is current. */
  lemma GetCurrentUserIsCurrent(users: map<UserId, User>, token: Option<string>, decoded: Option<UserId>)
    ensures GetCurrentUser(users, token, decoded).Some? ==> SessionCurrent(users, GetCurrentUser(users, token, decoded).value)
  {
  }

  /** `updateUserWallet`: adds `amount` to the user's balance and returns the new balance.
      `userId == None` is an empty id and `amount == None` a value that is not a number. The sign
      of the amount and of the resulting balance is not checked. */
  method UpdateUserWallet(db: Database, userId: Option<UserId>, amount: Option<real>) returns (r: Result<real>)
    requires db.Valid()
    modifies db`users
    ensures db.Valid()
    ensures userId.None? || amount.None? ==> r == Err("Invalid parameters")
    ensures userId.Some? && amount.Some? && userId.value !in old(db.users) ==> r == Err("User not found")
    ensures r.Ok? <==> userId.Some? && amount.Some? && userId.value in old(db.users)
    ensures r.Err? ==> db.users == old(db.users)
    ensures r.Ok? ==>
              && r.value == old(db.users)[userId.value].walletBalance + amount.value
              && db.users == Credit(old(db.users), userId.value, amount.value)
              && db.users[userId.value].walletBalance == r.value
  {
    if userId.None? || amount.None? {
      return Err("Invalid parameters");
    }
    var u := userId.value;
    if u !in db.users {
      return Err("User not found");
    }
    var updated := db.users[u].walletBalance + amount.value;
    db.users := db.users[u := db.users[u].(walletBalance := updated)];
    return Ok(updated);
  }
}
