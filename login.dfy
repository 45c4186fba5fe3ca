/**
 * app/api/auth/login/route.ts: `POST /api/auth/login`. The JSON body is
 * validated, looked up in a fixed table of demo accounts, and a success
 * replies with the user and sets the session cookie to a freshly signed token.
 */
module Login {
  import opened Wrappers
  import opened Http
  import opened Auth

  /** A JSON value, as `request.json()` produces it. */
  datatype Value =
    | Null
    | Bool(b: bool)
    | Number(n: real)
    | Str(s: string)
    | Array(items: seq<Value>)
    | Object(fields: map<string, Value>)

  /** The request body: not valid JSON (`request.json()` throws), or a JSON value. */
  datatype Body = Malformed | Json(value: Value)

  /** One entry of the demo account table. */
  datatype User = User(email: string, password: string, id: string, role: string)

  /** `validUsers` */
  const ValidUsers := [
    User("email@example.com", "password123", "1", "user"),
    User("admin@example.com", "admin123", "2", "admin")
  ]

  const MissingCredentials := "Email and password are required"
  const InvalidCredentials := "Invalid email or password"
  const InternalServerError := "Internal server error"
  const LoginSuccessful := "Login successful"

  /** Reading a property of the destructured body; `None` is `undefined` (non-objects have no such property). */
  function Field(v: Value, name: string): Option<Value>
  {
    if v.Object? && name in v.fields then Some(v.fields[name]) else None
  }

  /** JavaScript truthiness; `undefined`, `null`, `false`, `0` and `""` are falsy. */
  predicate Truthy(v: Option<Value>)
  {
    match v
    case None => false
    case Some(Null) => false
    case Some(Bool(b)) => b
    case Some(Number(n)) => n != 0.0
    case Some(Str(s)) => s != ""
    case Some(Array(_)) => true
    case Some(Object(_)) => true
  }

  /** `u.email === email && u.password === password`: strict equality, so only JSON strings can match. */
  predicate Matches(u: User, email: Option<Value>, password: Option<Value>)
  {
    email == Some(Str(u.email)) && password == Some(Str(u.password))
  }

  /** `users[i]` matches and no earlier entry does. */
  predicate FirstMatchAt(users: seq<User>, i: int, email: Option<Value>, password: Option<Value>)
  {
    && 0 <= i < |users|
    && Matches(users[i], email, password)
    && forall j :: 0 <= j < i ==> !Matches(users[j], email, password)
  }

  /** `users.find(...)`: the first entry that matches, or `undefined`. */
  function Find(users: seq<User>, email: Option<Value>, password: Option<Value>): (r: Option<User>)
    ensures r.None? <==> forall i :: 0 <= i < |users| ==> !Matches(users[i], email, password)
    ensures r.Some? ==> exists i :: FirstMatchAt(users, i, email, password) && users[i] == r.value
  {
    if users == [] then None
    else if Matches(users[0], email, password) then Some(users[0])
    else Find(users[1..], email, password)
  }

  /** The claims `createJWT` is called with: `sub`, `email` and `role` of the matched user. */
  function ClaimsOf(u: User): TokenClaims
  {
    TokenClaims(u.id, Some(u.email), Some(u.role))
  }

  /** The user object of the reply: no password. */
  function Summary(u: User): UserSummary
  {
    UserSummary(u.id, u.email, u.role)
  }

  /** The options passed to `response.cookies.set` by the route. */
  function LoginCookieOptions(production: bool): CookieOptions
  {
    CookieOptions(true, production, "lax", 60 * 60 * 24 * 7, "/")
  }

  function ErrorResponse(status: int, message: string): ResponseValue
  {
    ResponseValue(Reply(status, ErrorReply(message)), map[], map[])
  }

  /**
   * The reply to a login request. A body that is not JSON, or is JSON `null`
   * (destructuring it throws), ends in the catch-all 500. Every reply is
   * JSON with one of four statuses; only a 200 carries the user and a cookie.
   */
  function Respond(body: Body, sign: Signer, now: int, production: bool): (r: ResponseValue)
    ensures r.action.Reply? && r.headers == map[]
    ensures r.action.status in {200, 400, 401, 500}
    ensures r.action.status == 200 <==> r.action.body.LoginReply?
    ensures AuthCookie in r.cookies <==> r.action.status == 200
    ensures r.action.status != 200 ==> r.cookies == map[]
    ensures r.action.status == 500 <==> body.Malformed? || body == Json(Null)
  {
    if body.Malformed? || body.value.Null? then ErrorResponse(500, InternalServerError)
    else
      var email := Field(body.value, "email");
      var password := Field(body.value, "password");
      if !Truthy(email) || !Truthy(password) then ErrorResponse(400, MissingCredentials)
      else match Find(ValidUsers, email, password)
        case None => ErrorResponse(401, InvalidCredentials)
        case Some(user) =>
          ResponseValue(
            Reply(200, LoginReply(LoginSuccessful, Summary(user))),
            map[],
            map[AuthCookie := SetTo(CreateJwt(ClaimsOf(user), now, sign), LoginCookieOptions(production))])
  }

  /** `POST(request)`: builds the JSON response object and then sets the cookie on it. */
  method Post(body: Body, sign: Signer, now: int, production: bool) returns (response: Response)
    ensures fresh(response)
    ensures response.Snapshot() == Respond(body, sign, now, production)
  {
    if body.Malformed? || body.value.Null? {
      response := new Response.Json(500, ErrorReply(InternalServerError));
      return;
    }
    var email := Field(body.value, "email");
    var password := Field(body.value, "password");
    if !Truthy(email) || !Truthy(password) {
      response := new Response.Json(400, ErrorReply(MissingCredentials));
      return;
    }
    var user := Find(ValidUsers, email, password);
    if user.None? {
      response := new Response.Json(401, ErrorReply(InvalidCredentials));
      return;
    }
    var u := user.value;
    var token := CreateJwt(ClaimsOf(u), now, sign);
    response := new Response.Json(200, LoginReply(LoginSuccessful, Summary(u)));
    response.SetCookie(AuthCookie, token, LoginCookieOptions(production));
  }
  // ---------------------------------------------------------------------------
  // Properties of the login route
  // ---------------------------------------------------------------------------

  /** A body that is not JSON, or is JSON `null`, gets the generic 500 and no cookie. */
  lemma UnreadableBodyIsInternalError(body: Body, sign: Signer, now: int, production: bool)
    requires body.Malformed? || body == Json(Null)
    ensures Respond(body, sign, now, production) == ErrorResponse(500, InternalServerError)
  {
  }

  /** 400 exactly when email or password is falsy, checked before any lookup, and never with a cookie. */
  lemma MissingCredentialsIff(body: Body, sign: Signer, now: int, production: bool)
    ensures var r := Respond(body, sign, now, production);
      r.action.Reply? && r.action.status == 400 <==>
        body.Json? && body.value != Null
        && (!Truthy(Field(body.value, "email")) || !Truthy(Field(body.value, "password")))
    ensures var r := Respond(body, sign, now, production);
      r.action.Reply? && r.action.status == 400 ==> r == ErrorResponse(400, MissingCredentials)
  {
  }

  /** The emails of the table are distinct, so at most one entry can match. */
  lemma AtMostOneMatch(email: Option<Value>, password: Option<Value>, i: int, j: int)
    requires 0 <= i < |ValidUsers| && 0 <= j < |ValidUsers|
    requires Matches(ValidUsers[i], email, password) && Matches(ValidUsers[j], email, password)
    ensures i == j
  {
  }

  /** Success exactly when both fields are JSON strings equal to the email and password of one table entry. */
  lemma SucceedsIff(body: Body, sign: Signer, now: int, production: bool)
    ensures var r := Respond(body, sign, now, production);
      r.action.Reply? && r.action.status == 200 <==>
        body.Json? && exists i :: 0 <= i < |ValidUsers| && Matches(ValidUsers[i], Field(body.value, "email"), Field(body.value, "password"))
  {
  }

  /** Every 401 is one fixed reply: an unknown email and a wrong password are indistinguishable. */
  lemma FailedLookupIsGeneric(body: Body, sign: Signer, now: int, production: bool)
    requires Respond(body, sign, now, production).action.Reply?
    requires Respond(body, sign, now, production).action.status == 401
    ensures Respond(body, sign, now, production) == ErrorResponse(401, InvalidCredentials)
  {
  }

  /**
   * A success replies with the matched entry's id, email and role (never its
   * password) and sets `auth-token` to the token signed over exactly
   * `sub`, `email` and `role` of that entry, with the fixed cookie attributes.
   */
  lemma SuccessShape(body: Body, sign: Signer, now: int, production: bool)
    requires Respond(body, sign, now, production).action.Reply?
    requires Respond(body, sign, now, production).action.status == 200
    ensures exists i :: (
      && 0 <= i < |ValidUsers|
      && var u := ValidUsers[i];
         && body.Json? && Matches(u, Field(body.value, "email"), Field(body.value, "password"))
         && Respond(body, sign, now, production) == ResponseValue(
              Reply(200, LoginReply(LoginSuccessful, UserSummary(u.id, u.email, u.role))),
              map[],
              map[AuthCookie := SetTo(sign(IssuedPayload(TokenClaims(u.id, Some(u.email), Some(u.role)), now)),
                                      CookieOptions(true, production, "lax", 604800, "/"))]))
  {
  }

  /** The route's cookie attributes are those `setAuthCookie` uses. */
  lemma CookieOptionsAgree(production: bool)
    ensures LoginCookieOptions(production) == AuthCookieOptions(production)
  {
  }

  function Credentials(email: string, password: string): Body
  {
    Json(Object(map["email" := Str(email), "password" := Str(password)]))
  }

  /** The two demo accounts, and a stranger. */
  lemma DemoAccounts(sign: Signer, now: int, production: bool)
    ensures Respond(Credentials("email@example.com", "password123"), sign, now, production).action
      == Reply(200, LoginReply(LoginSuccessful, UserSummary("1", "email@example.com", "user")))
    ensures Respond(Credentials("admin@example.com", "admin123"), sign, now, production).action
      == Reply(200, LoginReply(LoginSuccessful, UserSummary("2", "admin@example.com", "admin")))
    ensures Respond(Credentials("x@x.com", "wrong"), sign, now, production) == ErrorResponse(401, InvalidCredentials)
    ensures Respond(Credentials("email@example.com", "admin123"), sign, now, production) == ErrorResponse(401, InvalidCredentials)
  {
    CredentialsReply("email@example.com", "password123", sign, now, production);
    CredentialsReply("admin@example.com", "admin123", sign, now, production);
    CredentialsReply("x@x.com", "wrong", sign, now, production);
    CredentialsReply("email@example.com", "admin123", sign, now, production);
  }

  /** A body with two non-empty strings gets the matching entry's summary, or the generic 401. */
  lemma CredentialsReply(email: string, password: string, sign: Signer, now: int, production: bool)
    requires email != "" && password != ""
    ensures var r := Respond(Credentials(email, password), sign, now, production);
      if email == ValidUsers[0].email && password == ValidUsers[0].password then
        r.action == Reply(200, LoginReply(LoginSuccessful, Summary(ValidUsers[0])))
      else if email == ValidUsers[1].email && password == ValidUsers[1].password then
        r.action == Reply(200, LoginReply(LoginSuccessful, Summary(ValidUsers[1])))
      else r == ErrorResponse(401, InvalidCredentials)
  {
    var b := Credentials(email, password);
    assert Field(b.value, "email") == Some(Str(email));
    assert Field(b.value, "password") == Some(Str(password));
    assert ValidUsers[1..][1..] == [];
  }
}
