/**
 * The combined API router: the JWT cookie check that guards its protected routes,
 * its own signup and login (which, unlike the auth routes, neither validate nor
 * normalise the address), the guarded PayPal routes, and `POST /chat`, which stores
 * each prompt and the model's answer as two `chat_history` rows.
 *
 * Token verification, password hashing, the AI model and database failures are
 * inputs. A password stands for its hash, and comparing with the hash is equality.
 */
module Api {
  import opened JsCore
  import Payments

  const NoToken := "No token provided."
  const InvalidToken := "Invalid token."
  const FieldsRequired := "Email and password are required."
  const UserExists := "User already exists."
  const SignupError := "Server error during signup."
  const UserNotFound := "User not found."
  const InvalidCredentials := "Invalid credentials."
  const LoginError := "Server error during login."
  const PromptRequired := "Prompt and sessionId are required."
  const AiFailure := "Error communicating with AI."

  /** The token payload: the user's id and email. */
  datatype TokenUser = TokenUser(id: nat, email: string)

  /** What `jwt.verify` makes of the cookie: its payload, or an error (bad signature, expired). */
  datatype Verification = Verified(user: TokenUser) | NotVerified

  /** The outcome of `authenticateToken`, or of a route behind it. */
  datatype Guarded<T> = Blocked(status: int, message: string) | Passed(reply: T)

  /** `authenticateToken`: 401 without a cookie, 403 when verification fails, and the
      payload as `req.user` otherwise. */
  function Authenticate(token: Option<string>, verify: Verification): (g: Guarded<TokenUser>)
    ensures g == Blocked(401, NoToken) <==> !Present(token)
    ensures g == Blocked(403, InvalidToken) <==> Present(token) && verify.NotVerified?
    ensures g.Passed? <==> Present(token) && verify.Verified?
    ensures g.Passed? ==> g.reply == verify.user
  {
    if !Present(token) then Blocked(401, NoToken)
    else match verify
      case NotVerified => Blocked(403, InvalidToken)
      case Verified(user) => Passed(user)
  }

  /** A request without a cookie is refused before any verification is attempted. */
  lemma MissingTokenNeverVerified(v1: Verification, v2: Verification)
    ensures Authenticate(None, v1) == Authenticate(Some(""), v2) == Blocked(401, NoToken)
  {
  }

  /** A row of this router's `users` table, keyed by the email exactly as given. */
  datatype UserRow = UserRow(id: nat, passwordHash: string)

  datatype SignupReply = Created(id: nat, email: string) | SignupRefused(status: int, message: string)

  /** `POST /auth/signup`: the new table and the reply. The insert fails with a unique
      violation when the address is taken, or for another reason when `insertFails`. */
  function Signup(users: map<string, UserRow>, email: Option<string>, password: Option<string>,
                  freshId: nat, insertFails: bool): (r: (map<string, UserRow>, SignupReply))
    ensures !Present(email) || !Present(password) ==> r == (users, SignupRefused(400, FieldsRequired))
    ensures r.1.Created? <==> Present(email) && Present(password) && email.value !in users && !insertFails
    ensures r.1.Created? ==> r == (users[email.value := UserRow(freshId, password.value)], Created(freshId, email.value))
    ensures !r.1.Created? ==> r.0 == users
    ensures Present(email) && Present(password) && email.value in users ==> r.1 == SignupRefused(409, UserExists)
    ensures Present(email) && Present(password) && email.value !in users && insertFails ==>
              r.1 == SignupRefused(500, SignupError)
  {
    if !Present(email) || !Present(password) then (users, SignupRefused(400, FieldsRequired))
    else if email.value in users then (users, SignupRefused(409, UserExists))
    else if insertFails then (users, SignupRefused(500, SignupError))
    else (users[email.value := UserRow(freshId, password.value)], Created(freshId, email.value))
  }

  datatype LoginReply = LoggedIn(token: string, user: TokenUser) | LoginRefused(status: int, message: string)

  /** `POST /auth/login`: `token` is what signing the payload yields, `queryFails` a
      failure of the lookup. An unknown address is answered 404, a wrong password 401. */
  function Login(users: map<string, UserRow>, email: Option<string>, password: Option<string>,
                 token: string, queryFails: bool): (r: LoginReply)
    ensures !Present(email) || !Present(password) ==> r == LoginRefused(400, FieldsRequired)
    ensures Present(email) && Present(password) && queryFails ==> r == LoginRefused(500, LoginError)
    ensures Present(email) && Present(password) && !queryFails && email.value !in users ==>
              r == LoginRefused(404, UserNotFound)
    ensures r.LoggedIn? <==> Present(email) && Present(password) && !queryFails && email.value in users &&
                             users[email.value].passwordHash == password.value
    ensures r.LoggedIn? ==> r == LoggedIn(token, TokenUser(users[email.value].id, email.value))
    ensures Present(email) && Present(password) && !queryFails && email.value in users &&
              users[email.value].passwordHash != password.value ==>
              r == LoginRefused(401, InvalidCredentials)
  {
    if !Present(email) || !Present(password) then LoginRefused(400, FieldsRequired)
    else if queryFails then LoginRefused(500, LoginError)
    else if email.value !in users then LoginRefused(404, UserNotFound)
    else if users[email.value].passwordHash != password.value then LoginRefused(401, InvalidCredentials)
    else LoggedIn(token, TokenUser(users[email.value].id, email.value))
  }

  /** A signup followed by a login with the same fields succeeds with the new id, and a
      second signup for the address conflicts. */
  lemma SignupThenLogin(users: map<string, UserRow>, email: Option<string>, password: Option<string>,
                        freshId: nat, token: string, otherId: nat, otherPassword: Option<string>, fails: bool)
    requires Signup(users, email, password, freshId, false).1.Created?
    ensures var u := Signup(users, email, password, freshId, false).0;
      Login(u, email, password, token, false) == LoggedIn(token, TokenUser(freshId, email.value)) &&
      (Present(otherPassword) ==> Signup(u, email, otherPassword, otherId, fails) == (u, SignupRefused(409, UserExists)))
  {
  }

  /** The address is neither trimmed nor lower-cased here: an account created as
      "Ann@Site.io" is not found when logging in as "ann@site.io". */
  lemma LoginIsCaseSensitive(freshId: nat, password: string, token: string)
    requires password != []
    ensures var u := Signup(map[], Some("Ann@Site.io"), Some(password), freshId, false).0;
      Login(u, Some("ann@site.io"), Some(password), token, false) == LoginRefused(404, UserNotFound)
  {
    assert "Ann@Site.io"[0] != "ann@site.io"[0];
  }

  /** `POST /paypal/create-order` behind the cookie check: the reply, and whether the
      gateway is called. */
  function GuardedCreateOrder(token: Option<string>, verify: Verification, price: Payments.PriceInput,
                              gateway: Payments.CreateOutcome): (r: (Guarded<Payments.CreateReply>, bool))
    ensures r.1 ==> Authenticate(token, verify).Passed? && Payments.Truthy(price) && Payments.ParsesAsNumber(price)
    ensures !Authenticate(token, verify).Passed? ==> r.0.Blocked? && r.0.status in {401, 403}
    ensures Authenticate(token, verify).Passed? ==>
              r == (Passed(Payments.CreateOrder(price, gateway).0), Payments.CreateOrder(price, gateway).1)
  {
    match Authenticate(token, verify)
    case Blocked(status, message) => (Blocked(status, message), false)
    case Passed(_) =>
      var (reply, called) := Payments.CreateOrder(price, gateway);
      (Passed(reply), called)
  }

  /** A row of `chat_history`. */
  datatype ChatRow = ChatRow(userId: nat, sessionId: string, role: string, content: string)

  /** The `history` field: `history.map` throws unless it is an array. */
  datatype ChatHistory = NotAnArray | Turns(turns: seq<(string, string)>)

  datatype ChatReply = Answered(response: string) | ChatRefused(status: int, message: string)

  /** `POST /chat` for the authenticated user: the new rows and the reply. `ai` is the
      model's answer, or `None` when the call throws; `insertOk` whether the two-row
      insert succeeds. */
  function Chat(rows: seq<ChatRow>, userId: nat, prompt: Option<string>, history: ChatHistory,
                sessionId: Option<string>, ai: Option<string>, insertOk: bool): (r: (seq<ChatRow>, ChatReply))
    ensures !Present(prompt) || !Present(sessionId) ==> r == (rows, ChatRefused(400, PromptRequired))
    ensures r.1.Answered? <==> Present(prompt) && Present(sessionId) && history.Turns? && ai.Some? && insertOk
    ensures r.1.Answered? ==>
              r.1.response == ai.value &&
              r.0 == rows + [ChatRow(userId, sessionId.value, "user", prompt.value),
                             ChatRow(userId, sessionId.value, "model", ai.value)]
    ensures !r.1.Answered? ==> r.0 == rows
    ensures Present(prompt) && Present(sessionId) && !r.1.Answered? ==> r.1 == ChatRefused(500, AiFailure)
  {
    if !Present(prompt) || !Present(sessionId) then (rows, ChatRefused(400, PromptRequired))
    else if history.NotAnArray? || ai.None? || !insertOk then (rows, ChatRefused(500, AiFailure))
    else
      (rows + [ChatRow(userId, sessionId.value, "user", prompt.value), ChatRow(userId, sessionId.value, "model", ai.value)],
       Answered(ai.value))
  }

  /** The table holds prompt/answer pairs: user rows at even positions, each followed by
      the model's row for the same user and session. */
  predicate Paired(rows: seq<ChatRow>)
  {
    |rows| % 2 == 0 &&
    forall i | 0 <= i < |rows| ::
      rows[i].role == (if i % 2 == 0 then "user" else "model") &&
      (i % 2 == 1 ==> rows[i].userId == rows[i - 1].userId && rows[i].sessionId == rows[i - 1].sessionId)
  }

  /** `/chat` keeps the table paired whatever happens. */
  lemma ChatKeepsRowsPaired(rows: seq<ChatRow>, userId: nat, prompt: Option<string>, history: ChatHistory,
                            sessionId: Option<string>, ai: Option<string>, insertOk: bool)
    requires Paired(rows)
    ensures Paired(Chat(rows, userId, prompt, history, sessionId, ai, insertOk).0)
  {
    var r := Chat(rows, userId, prompt, history, sessionId, ai, insertOk).0;
    if r != rows {
      var n := |rows|;
      assert |r| == n + 2;
      forall i | 0 <= i < |r|
        ensures r[i].role == (if i % 2 == 0 then "user" else "model") &&
                (i % 2 == 1 ==> r[i].userId == r[i - 1].userId && r[i].sessionId == r[i - 1].sessionId)
      {
        if i < n {
          assert r[i] == rows[i];
          if i % 2 == 1 {
            assert r[i - 1] == rows[i - 1];
          }
        }
      }
    }
  }

  /** The tables behind this router. */
  class ApiServer {
    var users: map<string, UserRow>
    var chatHistory: seq<ChatRow>
    const ledger: Payments.PurchaseLedger

    constructor (ledger: Payments.PurchaseLedger)
      ensures users == map[] && chatHistory == [] && this.ledger == ledger
    {
      users := map[];
      chatHistory := [];
      this.ledger := ledger;
    }

    /** `POST /auth/signup`. */
    method HandleSignup(email: Option<string>, password: Option<string>, freshId: nat, insertFails: bool)
      returns (reply: SignupReply)
      modifies this
      ensures (users, reply) == Signup(old(users), email, password, freshId, insertFails)
      ensures chatHistory == old(chatHistory)
    {
      if !Present(email) || !Present(password) {
        return SignupRefused(400, FieldsRequired);
      }
      // the UNIQUE constraint on the address
      if email.value in users {
        return SignupRefused(409, UserExists);
      }
      if insertFails {
        return SignupRefused(500, SignupError);
      }
      users := users[email.value := UserRow(freshId, password.value)];
      reply := Created(freshId, email.value);
    }

    /** `POST /paypal/capture-order` behind the cookie check; the purchase row has no
        status column here. */
    method HandleCapture(token: Option<string>, verify: Verification, req: Payments.CaptureRequest,
                         gateway: Payments.CaptureOutcome, insertFails: bool, mailOk: bool)
      returns (reply: Guarded<Payments.CaptureReply>)
      modifies ledger
      ensures reply.Blocked? <==> !Authenticate(token, verify).Passed?
      ensures reply.Blocked? ==> ledger.Snapshot() == old(ledger.Snapshot())
      ensures reply.Passed? ==>
                (ledger.Snapshot(), reply.reply) ==
                Payments.Capture(old(ledger.Snapshot()), Payments.ApiRouter, verify.user.id, verify.user.email,
                                 req, gateway, insertFails, mailOk)
    {
      var gate := Authenticate(token, verify);
      if gate.Blocked? {
        return Blocked(gate.status, gate.message);
      }
      var r := ledger.CaptureOrder(Payments.ApiRouter, gate.reply.id, gate.reply.email, req, gateway, insertFails, mailOk);
      reply := Passed(r);
    }

    /** `POST /chat` behind the cookie check. */
    method HandleChat(token: Option<string>, verify: Verification, prompt: Option<string>, history: ChatHistory,
                      sessionId: Option<string>, ai: Option<string>, insertOk: bool)
      returns (reply: Guarded<ChatReply>)
      modifies this
      ensures reply.Blocked? <==> !Authenticate(token, verify).Passed?
      ensures reply.Blocked? ==> chatHistory == old(chatHistory)
      ensures reply.Passed? ==>
                (chatHistory, reply.reply) == Chat(old(chatHistory), verify.user.id, prompt, history, sessionId, ai, insertOk)
      ensures users == old(users)
    {
      var gate := Authenticate(token, verify);
      if gate.Blocked? {
        return Blocked(gate.status, gate.message);
      }
      if !Present(prompt) || !Present(sessionId) {
        return Passed(ChatRefused(400, PromptRequired));
      }
      if history.NotAnArray? || ai.None? || !insertOk {
        return Passed(ChatRefused(500, AiFailure));
      }
      chatHistory := chatHistory + [ChatRow(gate.reply.id, sessionId.value, "user", prompt.value),
                                    ChatRow(gate.reply.id, sessionId.value, "model", ai.value)];
      reply := Passed(Answered(ai.value));
    }
  }
}
