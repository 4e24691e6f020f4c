/** The sign-up and login flows of auth/login_manager.py. Each flow is a
    start step, which checks its guards and issues a one-time code, and a
    verify step, which checks the code (and, for login, the password).

    The database is the two tables the flows touch: users, keyed by the
    lower-cased e-mail (database/db_manager.py:93 and :100), and the issued
    codes. Code generation, password hashing and code verification are
    parameters: `code` is the code `generate_otp` drew, `passwordHash` the
    hash `hash_password` produced, `checkPassword` is `verify_password`,
    `verifyOtp` is `verify_otp`. */
module LoginManager {
  import opened Wrappers
  import opened Strings

  /** `AuthError(message)`, or the `sqlite3.IntegrityError` that
      `create_user` raises when a constraint of the users table fails. */
  datatype Error = AuthError(message: string) | IntegrityError

  datatype Result<T> = Ok(value: T) | Err(error: Error)

  /** The roles the users table's CHECK constraint admits. */
  predicate ValidRole(role: string) { role == "recruiter" || role == "candidate" }

  datatype User = User(id: nat, name: string, email: string, passwordHash: string, role: string)

  /** The users table, keyed by its UNIQUE e-mail column. */
  type Users = map<string, User>

  /** `get_user_by_email`: the lookup lower-cases the e-mail. */
  function FindUser(users: Users, email: string): Option<User> {
    if Lower(email) in users then Some(users[Lower(email)]) else None
  }

  /** A row of the codes table. */
  datatype OtpRow = OtpRow(email: string, code: string, purpose: string)

  type CheckPassword = (string, string) -> bool
  type VerifyOtp = (string, string, string) -> bool

  // ---------- The guard chains ----------

  /** `signup_start`: the role guard, then the existing-user guard, then the
      code is issued and returned. */
  function SignupStartResult(users: Users, email: string, role: string, code: string): Result<string> {
    if !ValidRole(role) then Err(AuthError("Invalid role"))
    else if FindUser(users, email).Some? then Err(AuthError("User already exists"))
    else Ok(code)
  }

  /** `login_start`: an unknown e-mail gets no code. */
  function LoginStartResult(users: Users, email: string, code: string): Result<string> {
    if FindUser(users, email).None? then Err(AuthError("User not found")) else Ok(code)
  }

  /** `login_verify`: the user lookup, then the password, then the code. */
  function LoginVerify(users: Users, email: string, password: string, code: string,
                       checkPassword: CheckPassword, verifyOtp: VerifyOtp): Result<User>
  {
    match FindUser(users, email)
    case None => Err(AuthError("User not found"))
    case Some(user) =>
      if !checkPassword(password, user.passwordHash) then Err(AuthError("Invalid credentials"))
      else if !verifyOtp(email, code, "login") then Err(AuthError("Invalid OTP"))
      else Ok(user)
  }

  /** The role is checked before the user table is consulted: an invalid role
      is rejected whoever is registered. */
  lemma SignupRoleCheckedFirst(users: Users, other: Users, email: string, role: string, code: string)
    requires !ValidRole(role)
    ensures SignupStartResult(users, email, role, code) == Err(AuthError("Invalid role"))
    ensures SignupStartResult(users, email, role, code) == SignupStartResult(other, email, role, code)
  {
  }

  /** Sign-up start succeeds, returning the issued code, exactly for a valid
      role and an e-mail no user has in any letter case; otherwise the
      existing user is reported. */
  lemma SignupStartMeaning(users: Users, email: string, role: string, code: string)
    ensures SignupStartResult(users, email, role, code).Ok? <==> ValidRole(role) && Lower(email) !in users
    ensures SignupStartResult(users, email, role, code).Ok? ==> SignupStartResult(users, email, role, code).value == code
    ensures ValidRole(role) && Lower(email) in users ==>
      SignupStartResult(users, email, role, code) == Err(AuthError("User already exists"))
  {
  }

  /** Login start succeeds exactly for a registered e-mail. */
  lemma LoginStartMeaning(users: Users, email: string, code: string)
    ensures LoginStartResult(users, email, code) == if Lower(email) in users then Ok(code) else Err(AuthError("User not found"))
  {
  }

  /** A failed password check is reported before the code is looked at: the
      outcome is the same whatever the code verifier says. */
  lemma PasswordCheckedBeforeOtp(users: Users, email: string, password: string, code: string,
                                 checkPassword: CheckPassword, otp1: VerifyOtp, otp2: VerifyOtp)
    requires FindUser(users, email).Some?
    requires !checkPassword(password, FindUser(users, email).value.passwordHash)
    ensures LoginVerify(users, email, password, code, checkPassword, otp1) == Err(AuthError("Invalid credentials"))
    ensures LoginVerify(users, email, password, code, checkPassword, otp1)
         == LoginVerify(users, email, password, code, checkPassword, otp2)
  {
  }

  /** An unknown user is reported before the password or the code is looked at. */
  lemma UnknownUserCheckedFirst(users: Users, email: string, password: string, code: string,
                                checkPassword: CheckPassword, verifyOtp: VerifyOtp)
    requires Lower(email) !in users
    ensures LoginVerify(users, email, password, code, checkPassword, verifyOtp) == Err(AuthError("User not found"))
  {
  }

  /** Login succeeds exactly when the user exists, the password matches its
      stored hash and the login code verifies; it returns the stored user. */
  lemma LoginVerifyMeaning(users: Users, email: string, password: string, code: string,
                           checkPassword: CheckPassword, verifyOtp: VerifyOtp)
    ensures var r := LoginVerify(users, email, password, code, checkPassword, verifyOtp);
      (r.Ok? <==> Lower(email) in users && checkPassword(password, users[Lower(email)].passwordHash)
                  && verifyOtp(email, code, "login"))
      && (r.Ok? ==> r.value == users[Lower(email)])
  {
  }

  // ---------- The tables ----------

  /** The user and code tables the flows read and write. */
  class AuthStore {
    var users: Users
    var nextId: nat
    var otps: seq<OtpRow>

    /** What the users table's constraints keep true: each row is stored
        under its own (lower-case) e-mail, has a role the role guard admits, and an
        id below the next one to be assigned. */
    ghost predicate Valid()
      reads this
    {
      forall e :: e in users ==> users[e].email == e && ValidRole(users[e].role) && users[e].id < nextId
    }

    constructor ()
      ensures Valid() && users == map[] && nextId == 1 && otps == []
    {
      users := map[];
      nextId := 1;
      otps := [];
    }

    /** `signup_start` with its `request_otp(email, 'signup')`: on success one
        code row is added and nothing else changes. */
    method SignupStart(name: string, email: string, password: string, role: string, code: string)
      returns (r: Result<string>)
      modifies this`otps
      ensures r == SignupStartResult(users, email, role, code)
      ensures otps == if r.Ok? then old(otps) + [OtpRow(Lower(email), code, "signup")] else old(otps)
    {
      r := SignupStartResult(users, email, role, code);
      if r.Ok? {
        otps := otps + [OtpRow(Lower(email), code, "signup")];
      }
    }

    /** `login_start` with its `request_otp(email, 'login')`. */
    method LoginStart(email: string, code: string) returns (r: Result<string>)
      modifies this`otps
      ensures r == LoginStartResult(users, email, code)
      ensures otps == if r.Ok? then old(otps) + [OtpRow(Lower(email), code, "login")] else old(otps)
    {
      r := LoginStartResult(users, email, code);
      if r.Ok? {
        otps := otps + [OtpRow(Lower(email), code, "login")];
      }
    }

    /** `signup_verify`: a code that does not verify creates no user; otherwise
        `create_user` inserts one row with the given name, the lower-cased
        e-mail and the given role, and returns its id, unless the e-mail is
        taken or the role is not admitted, when the table's constraints
        raise instead. The role is not checked in this step itself. */
    method SignupVerify(name: string, email: string, password: string, role: string, code: string,
                        verifyOtp: VerifyOtp, passwordHash: string)
      returns (r: Result<nat>)
      requires Valid()
      modifies this`users, this`nextId
      ensures Valid()
      ensures !verifyOtp(email, code, "signup") ==>
        r == Err(AuthError("Invalid OTP")) && users == old(users) && nextId == old(nextId)
      ensures verifyOtp(email, code, "signup") && (Lower(email) in old(users) || !ValidRole(role)) ==>
        r == Err(IntegrityError) && users == old(users) && nextId == old(nextId)
      ensures verifyOtp(email, code, "signup") && Lower(email) !in old(users) && ValidRole(role) ==>
        && r == Ok(old(nextId))
        && (forall e :: e in old(users) ==> old(users)[e].id != old(nextId))
        && users == old(users)[Lower(email) := User(old(nextId), name, Lower(email), passwordHash, role)]
        && nextId == old(nextId) + 1
    {
      if !verifyOtp(email, code, "signup") {
        return Err(AuthError("Invalid OTP"));
      }
      var key := Lower(email);
      if key in users || !ValidRole(role) {
        return Err(IntegrityError);
      }
      users := users[key := User(nextId, name, key, passwordHash, role)];
      r := Ok(nextId);
      nextId := nextId + 1;
    }
  }

  /** After a successful sign-up the new user can log in: login start issues
      a code for the same e-mail in any letter case, and login verify returns
      the stored user once password and code check out. */
  lemma SignedUpUserCanLogIn(users: Users, id: nat, name: string, email: string, other: string,
                             passwordHash: string, role: string, code: string,
                             checkPassword: CheckPassword, verifyOtp: VerifyOtp, password: string)
    requires Lower(other) == Lower(email)
    requires checkPassword(password, passwordHash) && verifyOtp(other, code, "login")
    ensures var after := users[Lower(email) := User(id, name, Lower(email), passwordHash, role)];
      && LoginStartResult(after, other, code) == Ok(code)
      && LoginVerify(after, other, password, code, checkPassword, verifyOtp) == Ok(User(id, name, Lower(email), passwordHash, role))
  {
  }
}
