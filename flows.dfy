/**
 * How the three parts meet: the cookie a successful login sets is what the
 * gate and the page accessor later read. The verifier is only assumed to be
 * `Honest` at the time of the later request; the model does not decide it.
 */
module Flows {
  import opened Wrappers
  import opened Http
  import opened Auth
  import opened Gate
  import opened Login

  /**
   * After a successful login, a request to a protected page carrying the new
   * cookie, at any time before the token's `exp` is reached, passes the gate
   * with the logged-in user's id in `x-user-id`.
   */
  lemma LoginThenGate(body: Body, sign: Signer, now: int, production: bool, verify: Verifier,
                      later: int, jar: map<string, string>, path: string, redirectParam: Option<string>)
    requires Respond(body, sign, now, production).action.Reply?
    requires Respond(body, sign, now, production).action.status == 200
    requires Honest(verify, sign, later)
    requires later < now + ExpiresIn
    requires !Bypassed(path) && IsProtected(Tables, path)
    ensures var r := Respond(body, sign, now, production);
      Decide(Tables, Request(path, ApplyCookies(jar, r.cookies), redirectParam), verify, later)
        == ResponseValue(Continue, map["x-user-id" := r.action.body.user.id, "x-user-authenticated" := "true"], map[])
  {
    var r := Respond(body, sign, now, production);
    SuccessShape(body, sign, now, production);
    var i :| 0 <= i < |ValidUsers| && body.Json?
      && Matches(ValidUsers[i], Field(body.value, "email"), Field(body.value, "password"))
      && r == ResponseValue(
           Reply(200, LoginReply(LoginSuccessful, UserSummary(ValidUsers[i].id, ValidUsers[i].email, ValidUsers[i].role))),
           map[],
           map[AuthCookie := SetTo(sign(IssuedPayload(ClaimsOf(ValidUsers[i]), now)),
                                   CookieOptions(true, production, "lax", 604800, "/"))]);
    var p := IssuedPayload(ClaimsOf(ValidUsers[i]), now);
    var req := Request(path, ApplyCookies(jar, r.cookies), redirectParam);
    assert TokenOf(req) == Some(sign(p));
    assert verify(sign(p), NoChecks) == Accept(p);
    assert SessionOf(req, verify, later) == Verified(p);
    assert UserIdOf(p) == ValidUsers[i].id;
    ConfiguredClassification(path);
  }

  /**
   * The same cookie, read by `getCurrentUser` through its issuer and audience
   * checks before the token's `exp` is reached, yields the issued payload.
   */
  lemma LoginThenCurrentUser(body: Body, sign: Signer, now: int, production: bool, verify: Verifier, later: int)
    requires Respond(body, sign, now, production).action.Reply?
    requires Respond(body, sign, now, production).action.status == 200
    requires Honest(verify, sign, later)
    requires later < now + ExpiresIn
    ensures var r := Respond(body, sign, now, production);
      && AuthCookie in r.cookies && r.cookies[AuthCookie].SetTo?
      && var user := UserFromToken(Some(r.cookies[AuthCookie].value), verify);
         && user.Some?
         && user.value.sub == Some(r.action.body.user.id)
         && user.value.email == Some(r.action.body.user.email)
         && user.value.role == Some(r.action.body.user.role)
         && user.value.iss == Some(Issuer) && user.value.aud == Some(Audience)
  {
  }

  /**
   * Once the token's `exp` is reached, the same cookie no longer opens a
   * protected page: the verifier rejects it, so the gate redirects to a bare
   * `/login` and expires the cookie.
   */
  lemma LoginCookieExpires(body: Body, sign: Signer, now: int, production: bool, verify: Verifier,
                           later: int, jar: map<string, string>, path: string, redirectParam: Option<string>)
    requires Respond(body, sign, now, production).action.Reply?
    requires Respond(body, sign, now, production).action.status == 200
    requires Honest(verify, sign, later)
    requires later >= now + ExpiresIn
    requires !Bypassed(path) && IsProtected(Tables, path)
    ensures var r := Respond(body, sign, now, production);
      Decide(Tables, Request(path, ApplyCookies(jar, r.cookies), redirectParam), verify, later)
        == ResponseValue(RedirectTo(Location(LoginPath, None)), map[], map[AuthCookie := Expire])
  {
    var r := Respond(body, sign, now, production);
    SuccessShape(body, sign, now, production);
    var i :| 0 <= i < |ValidUsers| && body.Json?
      && Matches(ValidUsers[i], Field(body.value, "email"), Field(body.value, "password"))
      && r == ResponseValue(
           Reply(200, LoginReply(LoginSuccessful, UserSummary(ValidUsers[i].id, ValidUsers[i].email, ValidUsers[i].role))),
           map[],
           map[AuthCookie := SetTo(sign(IssuedPayload(ClaimsOf(ValidUsers[i]), now)),
                                   CookieOptions(true, production, "lax", 604800, "/"))]);
    var p := IssuedPayload(ClaimsOf(ValidUsers[i]), now);
    var req := Request(path, ApplyCookies(jar, r.cookies), redirectParam);
    assert TokenOf(req) == Some(sign(p));
    assert verify(sign(p), NoChecks) == Reject;
  }
}
