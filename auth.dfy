/**
 * The signup and login routes of the authentication router. Signup checks
 * presence, the e-mail pattern and the password rules in that order, stores
 * the account under the lower-cased, trimmed e-mail, gives the new user a
 * loyalty row and sends a welcome mail; login normalises the e-mail the same
 * way and authenticates.
 *
 * `createUser` and `authenticate` live in a file that is not part of this
 * model: the users table is a map keyed by the normalised e-mail whose
 * uniqueness raises the PostgreSQL code 23505, the new id is an input, and
 * authentication succeeds exactly when the stored password equals the one
 * given (the bcrypt hash is abstracted away). A body field is a string or
 * absent; other JSON values are not modelled.
 */
module Auth {
  import opened JsCore
  import Validation
  import ErrorHandler
  import Loyalty

  datatype Account = Account(id: nat, email: string, password: string, name: string)

  datatype Welcome = Welcome(to: string, greetingName: string)

  datatype AuthTables = AuthTables(users: map<string, Account>, loyalty: map<nat, Loyalty.LoyaltyRow>,
                                   welcomes: seq<Welcome>)

  datatype SignupReply =
    | SignupOk
    | SignupRejected(status: int, error: string)
    | SignupFailed(response: ErrorHandler.ErrorResponse)

  datatype LoginReply = LoginOk(token: string, id: nat, email: string, name: string) | LoginRejected(status: int, error: string)

  const MissingFields := "Email and password are required"
  const BadEmail := "Invalid email format"
  const DuplicateEmail := "An account with this email already exists."
  const BadCredentials := "Invalid credentials"

  /** `email.toLowerCase().trim()`. */
  function Normalize(email: string): (r: string)
    ensures |r| <= |email|
    ensures r == [] || (!IsSpace(r[0]) && !IsSpace(r[|r| - 1]))
  {
    LowerKeepsSpaces(email);
    Trim(ToLower(email))
  }

  lemma LowerTwice(s: string)
    ensures ToLower(ToLower(s)) == ToLower(s)
  {
  }

  lemma LowerCharSpace(c: char)
    ensures IsSpace(LowerChar(c)) <==> IsSpace(c)
  {
  }

  lemma {:induction false} LowerOfTrimStart(s: string)
    ensures TrimStart(ToLower(s)) == ToLower(TrimStart(s))
    decreases |s|
  {
    if s != [] {
      LowerCharSpace(s[0]);
      if IsSpace(s[0]) {
        assert ToLower(s)[1..] == ToLower(s[1..]);
        LowerOfTrimStart(s[1..]);
      }
    }
  }

  lemma {:induction false} LowerOfTrimEnd(s: string)
    ensures TrimEnd(ToLower(s)) == ToLower(TrimEnd(s))
    decreases |s|
  {
    if s != [] {
      LowerCharSpace(s[|s| - 1]);
      if IsSpace(s[|s| - 1]) {
        assert ToLower(s)[..|s| - 1] == ToLower(s[..|s| - 1]);
        LowerOfTrimEnd(s[..|s| - 1]);
      }
    }
  }

  /** Lower-casing and trimming commute. */
  lemma LowerOfTrim(s: string)
    ensures Trim(ToLower(s)) == ToLower(Trim(s))
  {
    LowerOfTrimStart(s);
    LowerOfTrimEnd(TrimStart(s));
  }

  /** Normalising twice changes nothing more. */
  lemma NormalizeIdempotent(email: string)
    ensures Normalize(Normalize(email)) == Normalize(email)
  {
    var n := Normalize(email);
    LowerOfTrim(email);
    LowerTwice(Trim(email));
    assert ToLower(n) == n;
    TrimNoOp(n);
  }

  /** A valid e-mail contains no whitespace, so normalising it only lower-cases it. */
  lemma ValidEmailOnlyLowercased(email: string)
    requires Validation.IsValidEmail(email)
    ensures Normalize(email) == ToLower(email)
  {
    var i, j :| Validation.EmailSplit(email, i, j);
    assert !IsSpace(email[0]) by { assert email[0] == email[..i][0]; }
    assert !IsSpace(email[|email| - 1]) by {
      assert email[|email| - 1] == email[j + 1..][|email| - j - 2];
    }
    TrimNoOp(email);
    LowerOfTrim(email);
  }

  /** The validation chain: the first failing check, with its status and message. */
  function SignupCheck(email: Option<string>, password: Option<string>): (r: Option<string>)
    ensures !Present(email) || !Present(password) ==> r == Some(MissingFields)
    ensures r.None? ==> Present(email) && Present(password)
    ensures Present(email) && Present(password) && !Validation.IsValidEmail(email.value) ==> r == Some(BadEmail)
    ensures Present(email) && Present(password) && Validation.IsValidEmail(email.value) ==>
              r == if Validation.ValidatePassword(password.value).valid then None
                   else Some(Validation.ValidatePassword(password.value).message)
  {
    if !Present(email) || !Present(password) then Some(MissingFields)
    else if !Validation.IsValidEmail(email.value) then Some(BadEmail)
    else
      var check := Validation.ValidatePassword(password.value);
      if !check.valid then Some(check.message) else None
  }

  /** `sanitizeInput(name || '')`. */
  function SanitizedName(name: Option<string>): (r: string)
    ensures Validation.NoSpecial(r)
    ensures !Present(name) ==> r == []
  {
    Validation.SanitizeInput(Validation.Str(if Present(name) then name.value else []))
  }

  /** How a thrown error is answered inside the signup `try`: a unique violation is a
      409, anything else goes to the error middleware. */
  function SignupError(e: ErrorHandler.AppError, nodeEnv: string): (r: SignupReply)
    ensures e.code == "23505" <==> r == SignupRejected(409, DuplicateEmail)
    ensures e.code != "23505" ==> r == SignupFailed(ErrorHandler.Handle(e, nodeEnv))
  {
    if e.code == "23505" then SignupRejected(409, DuplicateEmail)
    else SignupFailed(ErrorHandler.Handle(e, nodeEnv))
  }

  /** Which database write of the signup `try` throws, if any: `createUser` for a
      reason other than a stored e-mail, or the loyalty insert after it. */
  datatype WriteFault = NoWriteFault | UserInsertFails(error: ErrorHandler.AppError) | LoyaltyInsertFails(error: ErrorHandler.AppError)

  /** The error `createUser` raises for an e-mail that is already stored. */
  const UniqueViolation := ErrorHandler.AppError("error", "23505", 0, 0, "duplicate key value violates unique constraint", "")

  /** `POST /signup`; `freshId` is the id the database would assign, `writeFault` the
      write that would throw and `mailError` the error the mailer would throw. */
  function Signup(t: AuthTables, email: Option<string>, password: Option<string>, name: Option<string>,
                  freshId: nat, writeFault: WriteFault, mailError: Option<ErrorHandler.AppError>, nodeEnv: string)
    : (r: (AuthTables, SignupReply))
    // a request that is not answered with success sends no welcome mail
    ensures r.1 != SignupOk ==> r.0.welcomes == t.welcomes
  {
    var check := SignupCheck(email, password);
    if check.Some? then (t, SignupRejected(400, check.value))
    else Register(t, Account(freshId, Normalize(email.value), password.value, SanitizedName(name)),
                  Welcome(email.value, if Present(name) then name.value else "Artist"), writeFault, mailError, nodeEnv)
  }

  /** Signup after validation: `createUser` stores `account` under its (normalised)
      e-mail, the loyalty row follows, then the welcome mail is sent. */
  function Register(t: AuthTables, account: Account, welcome: Welcome, writeFault: WriteFault,
                    mailError: Option<ErrorHandler.AppError>, nodeEnv: string): (r: (AuthTables, SignupReply))
    // an e-mail already stored is a conflict and writes nothing
    ensures account.email in t.users ==> r == (t, SignupRejected(409, DuplicateEmail))
    // a failing `createUser` writes nothing and its error is answered as thrown
    ensures account.email !in t.users && writeFault.UserInsertFails? ==>
              r == (t, SignupError(writeFault.error, nodeEnv))
    // a failing loyalty insert keeps the stored account and leaves the loyalty table as it was
    ensures account.email !in t.users && writeFault.LoyaltyInsertFails? ==>
              r == (t.(users := t.users[account.email := account]), SignupError(writeFault.error, nodeEnv))
    // otherwise the account and the loyalty row are written before the mail is sent,
    // so they stay even when the mail fails
    ensures account.email !in t.users && writeFault.NoWriteFault? ==>
              r.0.users == t.users[account.email := account] &&
              r.0.loyalty == Loyalty.WithRow(t.loyalty, account.id) &&
              (r.1 == SignupOk <==> mailError.None?)
    ensures r.1 == SignupOk <==> account.email !in t.users && writeFault.NoWriteFault? && mailError.None?
    ensures r.1 == SignupOk ==> r.0.welcomes == t.welcomes + [welcome]
    ensures r.1 != SignupOk ==> r.0.welcomes == t.welcomes
  {
    if account.email in t.users then (t, SignupError(UniqueViolation, nodeEnv))
    else
      match writeFault
      case UserInsertFails(e) => (t, SignupError(e, nodeEnv))
      case LoyaltyInsertFails(e) => (t.(users := t.users[account.email := account]), SignupError(e, nodeEnv))
      case NoWriteFault =>
        var t' := t.(users := t.users[account.email := account], loyalty := Loyalty.WithRow(t.loyalty, account.id));
        match mailError
        case Some(e) => (t', SignupError(e, nodeEnv))
        case None => (t'.(welcomes := t.welcomes + [welcome]), SignupOk)
  }

  /** Validation comes first, in the order presence, e-mail, password, and a rejected
      request writes nothing. */
  lemma SignupValidatesFirst(t: AuthTables, email: Option<string>, password: Option<string>, name: Option<string>,
                             freshId: nat, writeFault: WriteFault, mailError: Option<ErrorHandler.AppError>, nodeEnv: string)
    requires SignupCheck(email, password).Some?
    ensures Signup(t, email, password, name, freshId, writeFault, mailError, nodeEnv) == (t, SignupRejected(400, SignupCheck(email, password).value))
  {
  }

  /** Once validation passes, signup registers the account keyed by the lower-cased,
      trimmed e-mail, with the sanitised name, and greets the address as typed. */
  lemma SignupRegisters(t: AuthTables, email: Option<string>, password: Option<string>, name: Option<string>,
                        freshId: nat, writeFault: WriteFault, mailError: Option<ErrorHandler.AppError>, nodeEnv: string)
    requires SignupCheck(email, password).None?
    ensures Present(email) && Present(password)
    ensures Signup(t, email, password, name, freshId, writeFault, mailError, nodeEnv) ==
            Register(t, Account(freshId, Normalize(email.value), password.value, SanitizedName(name)),
                     Welcome(email.value, if Present(name) then name.value else "Artist"), writeFault, mailError, nodeEnv)
  {
  }

  /** `POST /login`: `token` is the token `authenticate` would issue. */
  function Login(users: map<string, Account>, email: Option<string>, password: Option<string>, token: string): (r: LoginReply)
    ensures !Present(email) || !Present(password) ==> r == LoginRejected(400, MissingFields)
    ensures r.LoginOk? <==> Present(email) && Present(password) && Normalize(email.value) in users &&
                            users[Normalize(email.value)].password == password.value
    ensures r.LoginOk? ==> r == LoginOk(token, users[Normalize(email.value)].id, users[Normalize(email.value)].email,
                                        users[Normalize(email.value)].name)
    ensures r.LoginRejected? && Present(email) && Present(password) ==> r == LoginRejected(401, BadCredentials)
  {
    if !Present(email) || !Present(password) then LoginRejected(400, MissingFields)
    else
      var key := Normalize(email.value);
      if key in users && users[key].password == password.value then
        LoginOk(token, users[key].id, users[key].email, users[key].name)
      else LoginRejected(401, BadCredentials)
  }

  /** Upper-case letters in the typed e-mail never matter. */
  lemma NormalizeIgnoresCase(email: string)
    ensures Normalize(ToLower(email)) == Normalize(email)
  {
    LowerOfTrim(ToLower(email));
    LowerOfTrim(email);
    LowerTwice(Trim(email));
  }

  /** A registered account can log in with its password under any spelling of the
      e-mail that normalises to its key. */
  lemma RegisterThenLogin(t: AuthTables, account: Account, welcome: Welcome, writeFault: WriteFault,
                          mailError: Option<ErrorHandler.AppError>, nodeEnv: string, loginEmail: string, token: string)
    requires Register(t, account, welcome, writeFault, mailError, nodeEnv).1 == SignupOk
    requires Normalize(loginEmail) == account.email && loginEmail != [] && account.password != []
    ensures Login(Register(t, account, welcome, writeFault, mailError, nodeEnv).0.users, Some(loginEmail), Some(account.password), token) ==
            LoginOk(token, account.id, account.email, account.name)
  {
  }

  /** Once an account is registered, registering any account under the same key is a
      conflict that changes nothing. */
  lemma RegisterTwiceConflicts(t: AuthTables, account: Account, welcome: Welcome, writeFault: WriteFault,
                               mailError: Option<ErrorHandler.AppError>, nodeEnv: string,
                               account': Account, welcome': Welcome, writeFault': WriteFault,
                               mailError': Option<ErrorHandler.AppError>)
    requires Register(t, account, welcome, writeFault, mailError, nodeEnv).1 == SignupOk
    requires account'.email == account.email
    ensures var t1 := Register(t, account, welcome, writeFault, mailError, nodeEnv).0;
      Register(t1, account', welcome', writeFault', mailError', nodeEnv) == (t1, SignupRejected(409, DuplicateEmail))
  {
  }

  /** The users table, the welcome mails sent and the loyalty store. */
  class Accounts {
    var users: map<string, Account>
    var welcomes: seq<Welcome>
    const loyalty: Loyalty.LoyaltyStore

    function Snapshot(): AuthTables
      reads this, loyalty
    {
      AuthTables(users, loyalty.loyalty, welcomes)
    }

    constructor (loyalty: Loyalty.LoyaltyStore)
      ensures users == map[] && welcomes == [] && this.loyalty == loyalty
    {
      users := map[];
      welcomes := [];
      this.loyalty := loyalty;
    }

    /** `POST /signup`. */
    method HandleSignup(email: Option<string>, password: Option<string>, name: Option<string>,
                  freshId: nat, writeFault: WriteFault, mailError: Option<ErrorHandler.AppError>, nodeEnv: string)
      returns (reply: SignupReply)
      modifies this, loyalty
      ensures (Snapshot(), reply) == Signup(old(Snapshot()), email, password, name, freshId, writeFault, mailError, nodeEnv)
      ensures loyalty.promotions == old(loyalty.promotions) && loyalty.vouchers == old(loyalty.vouchers)
      ensures loyalty.users == old(loyalty.users) && loyalty.outbox == old(loyalty.outbox)
    {
      var rejection := SignupCheck(email, password);
      if rejection.Some? {
        return SignupRejected(400, rejection.value);
      }
      reply := Create(Account(freshId, Normalize(email.value), password.value, SanitizedName(name)),
                      Welcome(email.value, if Present(name) then name.value else "Artist"), writeFault, mailError, nodeEnv);
    }

    /** `createUser`, the loyalty insert and the welcome mail, in that order. */
    method Create(account: Account, welcome: Welcome, writeFault: WriteFault, mailError: Option<ErrorHandler.AppError>, nodeEnv: string)
      returns (reply: SignupReply)
      modifies this, loyalty
      ensures (Snapshot(), reply) == Register(old(Snapshot()), account, welcome, writeFault, mailError, nodeEnv)
      ensures loyalty.promotions == old(loyalty.promotions) && loyalty.vouchers == old(loyalty.vouchers)
      ensures loyalty.users == old(loyalty.users) && loyalty.outbox == old(loyalty.outbox)
    {
      if account.email in users {
        return SignupError(UniqueViolation, nodeEnv);
      }
      if writeFault.UserInsertFails? {
        return SignupError(writeFault.error, nodeEnv);
      }
      users := users[account.email := account];
      if writeFault.LoyaltyInsertFails? {
        return SignupError(writeFault.error, nodeEnv);
      }
      loyalty.EnsureRow(account.id);
      if mailError.Some? {
        return SignupError(mailError.value, nodeEnv);
      }
      welcomes := welcomes + [welcome];
      reply := SignupOk;
    }
  }
}
