/**
 * lib/auth.ts: the token claims, token issuance, the session accessor
 * (`verifyJWT`, `getCurrentUser`, `isAuthenticated`, `requireAuth`) and the
 * session cookie helpers. The HS256 signer and verifier of the JWT library are
 * abstract parameters: a `Signer` turns a payload into a token string, a
 * `Verifier` says whether a token is accepted and with which payload.
 */
module Auth {
  import opened Wrappers
  import opened Http

  /** `JWT_ISSUER` and `JWT_AUDIENCE` with the environment unset. */
  const Issuer := "your-app"
  const Audience := "your-app-users"

  /** `JWT_EXPIRES_IN = "7d"`, in seconds. */
  const ExpiresIn := 7 * 24 * 60 * 60

  /** The session cookie's name and max-age (seconds). */
  const AuthCookie := "auth-token"
  const CookieMaxAge := 60 * 60 * 24 * 7

  /**
   * A decoded token payload. Every claim may be absent; `userId` is a claim the
   * middleware falls back on when `sub` is missing or empty.
   */
  datatype Payload = Payload(
    sub: Option<string>,
    userId: Option<string>,
    email: Option<string>,
    role: Option<string>,
    iat: Option<int>,
    exp: Option<int>,
    iss: Option<string>,
    aud: Option<string>)

  /** What a caller of `createJWT` may supply: the payload without `iat`, `exp`, `iss` and `aud`. */
  datatype TokenClaims = TokenClaims(sub: string, email: Option<string>, role: Option<string>)

  /** The `issuer` and `audience` options passed to `jwtVerify`; `None` means the claim is not checked. */
  datatype ClaimChecks = ClaimChecks(issuer: Option<string>, audience: Option<string>)

  /** The options of `verifyJWT`: issuer and audience must match the configuration. */
  const AppChecks := ClaimChecks(Some(Issuer), Some(Audience))

  /** The empty options object the middleware passes. */
  const NoChecks := ClaimChecks(None, None)

  /** The outcome of `jwtVerify`: the payload, or a thrown error of any kind. */
  datatype Verdict = Accept(payload: Payload) | Reject

  /** `jwtVerify` with the process-wide secret and the clock of the current request. */
  type Verifier = (string, ClaimChecks) -> Verdict

  /** `SignJWT(...).sign(secret)`: the compact token for a payload. */
  type Signer = Payload -> string

  predicate Satisfies(p: Payload, checks: ClaimChecks)
  {
    && (checks.issuer.Some? ==> p.iss == checks.issuer)
    && (checks.audience.Some? ==> p.aud == checks.audience)
  }

  /** A verifier that, like `jwtVerify`, never accepts a payload failing the issuer or audience it was asked to check. */
  ghost predicate EnforcesChecks(verify: Verifier)
  {
    forall token, checks :: verify(token, checks).Accept? ==> Satisfies(verify(token, checks).payload, checks)
  }

  /**
   * The payload `createJWT` signs: the caller's claims stamped with `iat`,
   * `iss`, `aud` and `exp`. It passes the checks `verifyJWT` makes and
   * expires 7 days after it was issued.
   */
  function IssuedPayload(claims: TokenClaims, now: int): (p: Payload)
    ensures p.sub == Some(claims.sub) && p.email == claims.email && p.role == claims.role
    ensures Satisfies(p, AppChecks)
    ensures p.iat.Some? && p.exp.Some? && p.iat.value < p.exp.value
    ensures p.exp.value - p.iat.value == CookieMaxAge
  {
    Payload(Some(claims.sub), None, claims.email, claims.role,
            Some(now), Some(now + ExpiresIn), Some(Issuer), Some(Audience))
  }

  /**
   * What `jwtVerify` does with tokens from `SignJWT`, at request time `t`:
   * tokens are non-empty, and a signed payload is given back exactly when it
   * passes the issuer and audience checks asked for and its `exp` (if any)
   * has not been reached.
   */
  ghost predicate Honest(verify: Verifier, sign: Signer, t: int)
  {
    && (forall p: Payload :: sign(p) != "")
    && (forall p: Payload, checks: ClaimChecks ::
          verify(sign(p), checks) ==
            if Satisfies(p, checks) && !(p.exp.Some? && p.exp.value <= t) then Accept(p) else Reject)
  }

  /**
   * `createJWT(claims)` at time `now`. With an honest verifier, `verifyJWT`
   * returns exactly the issued payload for the token until its expiry, and
   * null from then on.
   */
  function CreateJwt(claims: TokenClaims, now: int, sign: Signer): (token: string)
    ensures forall verify: Verifier, t: int :: Honest(verify, sign, t) ==>
      && token != ""
      && (VerifyJwt(token, verify).Some? <==> t < now + ExpiresIn)
      && (t < now + ExpiresIn ==> VerifyJwt(token, verify) == Some(IssuedPayload(claims, now)))
  {
    sign(IssuedPayload(claims, now))
  }

  /** The caller cannot influence `iss`, `aud`, `iat` or `exp`: they depend only on the clock. */
  lemma IssuedStampsIgnoreCaller(c1: TokenClaims, c2: TokenClaims, now: int)
    ensures var p1, p2 := IssuedPayload(c1, now), IssuedPayload(c2, now);
      p1.iss == p2.iss && p1.aud == p2.aud && p1.iat == p2.iat && p1.exp == p2.exp && p1.userId == p2.userId
  {
  }

  /** `verifyJWT(token)`: the payload when the verifier accepts the token with the app's issuer and audience, else null. */
  function VerifyJwt(token: string, verify: Verifier): (r: Option<Payload>)
    ensures r.None? <==> verify(token, AppChecks).Reject?
    ensures r.Some? ==> r.value == verify(token, AppChecks).payload
  {
    match verify(token, AppChecks)
    case Accept(payload) => Some(payload)
    case Reject => None
  }

  /** Whatever `verifyJWT` returns carries the configured issuer and audience. */
  lemma VerifiedPayloadHasAppClaims(token: string, verify: Verifier)
    requires EnforcesChecks(verify)
    requires VerifyJwt(token, verify).Some?
    ensures VerifyJwt(token, verify).value.iss == Some(Issuer)
    ensures VerifyJwt(token, verify).value.aud == Some(Audience)
  {
  }

  /** The tail of `getCurrentUser` once the cookie was read: null for a missing or empty token, else `verifyJWT`. */
  function UserFromToken(token: Option<string>, verify: Verifier): (r: Option<Payload>)
    ensures r.Some? <==> token.Some? && token.value != "" && verify(token.value, AppChecks).Accept?
    ensures r.Some? ==> r.value == verify(token.value, AppChecks).payload
  {
    if token.None? || token.value == "" then None else VerifyJwt(token.value, verify)
  }

  /**
   * `getCurrentUser()`. A null store stands for `cookies()` throwing (no
   * request scope); that exception is caught and gives null.
   */
  function GetCurrentUser(store: CookieStore?, verify: Verifier): (r: Option<Payload>)
    reads store
    ensures r.Some? <==>
      && store != null && AuthCookie in store.jar && store.jar[AuthCookie].value != ""
      && verify(store.jar[AuthCookie].value, AppChecks).Accept?
    ensures r.Some? ==> r.value == verify(store.jar[AuthCookie].value, AppChecks).payload
  {
    if store == null then None else UserFromToken(store.Get(AuthCookie), verify)
  }

  /** `isAuthenticated()` */
  function IsAuthenticated(store: CookieStore?, verify: Verifier): (b: bool)
    reads store
    ensures b <==>
      && store != null && AuthCookie in store.jar && store.jar[AuthCookie].value != ""
      && verify(store.jar[AuthCookie].value, AppChecks).Accept?
  {
    GetCurrentUser(store, verify) != None
  }

  const AuthenticationRequired := "Authentication required"

  /** `requireAuth()`: the current user, or the error it throws. */
  function RequireAuth(store: CookieStore?, verify: Verifier): (r: Result<Payload, string>)
    reads store
    ensures r.Success? <==> IsAuthenticated(store, verify)
    ensures r.Success? ==> Some(r.value) == GetCurrentUser(store, verify)
    ensures r.Failure? ==> r.error == AuthenticationRequired
  {
    match GetCurrentUser(store, verify)
    case Some(user) => Success(user)
    case None => Failure(AuthenticationRequired)
  }

  /** The attributes `setAuthCookie` writes; `production` is `NODE_ENV === "production"`. */
  function AuthCookieOptions(production: bool): (o: CookieOptions)
    ensures o.httpOnly && o.sameSite == "lax" && o.path == "/" && o.maxAge == 604800
    ensures o.secure <==> production
  {
    CookieOptions(true, production, "lax", CookieMaxAge, "/")
  }

  /** `setAuthCookie(token)`: only the `auth-token` entry changes, and later reads see `token`. */
  method SetAuthCookie(store: CookieStore, token: string, production: bool)
    modifies store
    ensures store.jar == old(store.jar)[AuthCookie := StoredCookie(token, AuthCookieOptions(production))]
    ensures forall verify: Verifier :: GetCurrentUser(store, verify) == UserFromToken(Some(token), verify)
  {
    store.Set(AuthCookie, token, AuthCookieOptions(production));
  }

  /** `removeAuthCookie()`: only `auth-token` goes, after which there is no current user (also when repeated). */
  method RemoveAuthCookie(store: CookieStore)
    modifies store
    ensures store.jar == old(store.jar) - {AuthCookie}
    ensures forall verify: Verifier :: GetCurrentUser(store, verify) == None
  {
    store.Delete(AuthCookie);
  }
}
