/**
 * middleware.ts: the request gate run before every page. It skips framework,
 * API and static paths, classifies the path against the route tables, checks
 * the `auth-token` cookie and either lets the request through (with identity
 * headers when authenticated) or redirects it.
 */
module Gate {
  import opened Wrappers
  import opened Http
  import opened Auth

  /** The three route tables; the gate reads them, never changes them. */
  datatype RouteTables = RouteTables(protectedRoutes: seq<string>, publicRoutes: seq<string>, authOnlyRoutes: seq<string>)

  /** `protectedRoutes`, `publicRoutes` and `authOnlyRoutes` as configured. */
  const Tables := RouteTables(
    ["/dashboard", "/profile", "/admin", "/settings"],
    ["/login", "/register", "/forgot-password", "/", "/about"],
    ["/login", "/register"])

  const LoginPath := "/login"
  const DefaultLanding := "/dashboard"

  /** The parts of a request the gate looks at: path, cookies and the `redirect` query parameter. */
  datatype Request = Request(pathname: string, cookies: map<string, string>, redirectParam: Option<string>)

  /** `s.startsWith(prefix)` */
  predicate StartsWith(s: string, prefix: string)
  {
    prefix <= s
  }

  /** JavaScript truthiness of an optional string: present and non-empty. */
  predicate NonEmpty(s: Option<string>)
  {
    s.Some? && s.value != ""
  }

  /**
   * Framework internals, API routes and anything that looks like a file skip
   * the gate: the path begins with the six characters `/_next` or the four
   * characters `/api`, or has a dot at some position.
   */
  predicate Bypassed(path: string): (b: bool)
    ensures b <==>
      || (|path| >= 6 && path[..6] == "/_next")
      || (|path| >= 4 && path[..4] == "/api")
      || (exists i :: 0 <= i < |path| && path[i] == '.')
  {
    StartsWith(path, "/_next") || StartsWith(path, "/api") || '.' in path
  }

  /** `routes.some((route) => path.startsWith(route))` */
  function SomePrefix(routes: seq<string>, path: string): (b: bool)
    ensures b <==> exists i :: 0 <= i < |routes| && StartsWith(path, routes[i])
  {
    if routes == [] then false
    else StartsWith(path, routes[0]) || SomePrefix(routes[1..], path)
  }

  predicate IsProtected(tables: RouteTables, path: string)
  {
    SomePrefix(tables.protectedRoutes, path)
  }

  /** `isPublicRoute`: computed by the middleware and then never consulted. */
  predicate IsPublic(tables: RouteTables, path: string)
  {
    path in tables.publicRoutes
  }

  predicate IsAuthOnly(tables: RouteTables, path: string)
  {
    path in tables.authOnlyRoutes
  }

  /** `request.cookies.get("auth-token")?.value` */
  function TokenOf(req: Request): Option<string>
  {
    if AuthCookie in req.cookies then Some(req.cookies[AuthCookie]) else None
  }

  /** The middleware's own expiry check: `payload.exp && payload.exp < currentTime` (an `exp` of 0 is falsy). */
  predicate ExpiredAt(p: Payload, now: int)
  {
    p.exp.Some? && p.exp.value != 0 && p.exp.value < now
  }

  /** What the cookie amounts to: no token, a token the verifier throws on, or a verified payload that is or is not expired. */
  datatype Session = NoToken | Rejected | Expired(payload: Payload) | Verified(payload: Payload)

  /** The session of a request; the middleware calls `jwtVerify` without issuer or audience options. */
  function SessionOf(req: Request, verify: Verifier, now: int): (s: Session)
    ensures s.NoToken? <==> !NonEmpty(TokenOf(req))
    ensures s.Rejected? <==> NonEmpty(TokenOf(req)) && verify(TokenOf(req).value, NoChecks).Reject?
    ensures s.Verified? <==>
      && NonEmpty(TokenOf(req))
      && verify(TokenOf(req).value, NoChecks).Accept?
      && !ExpiredAt(verify(TokenOf(req).value, NoChecks).payload, now)
    ensures (s.Verified? || s.Expired?) ==>
      NonEmpty(TokenOf(req)) && s.payload == verify(TokenOf(req).value, NoChecks).payload
  {
    var token := TokenOf(req);
    if !NonEmpty(token) then NoToken
    else match verify(token.value, NoChecks)
      case Reject => Rejected
      case Accept(payload) => if ExpiredAt(payload, now) then Expired(payload) else Verified(payload)
  }

  /**
   * `String(userPayload.sub || userPayload.userId || "")`: a non-empty `sub`
   * wins; the id is empty only when neither claim is a non-empty string.
   */
  function UserIdOf(p: Payload): (id: string)
    ensures NonEmpty(p.sub) ==> id == p.sub.value
    ensures id != "" ==> Some(id) == p.sub || Some(id) == p.userId
    ensures id == "" <==> !NonEmpty(p.sub) && !NonEmpty(p.userId)
  {
    if NonEmpty(p.sub) then p.sub.value
    else if NonEmpty(p.userId) then p.userId.value
    else ""
  }

  /** The headers set on a pass-through response: only for a verified, unexpired session. */
  function IdentityHeaders(s: Session): map<string, string>
  {
    if s.Verified? then map["x-user-id" := UserIdOf(s.payload), "x-user-authenticated" := "true"]
    else map[]
  }

  /**
   * Where an authenticated visitor of `/login` or `/register` is sent: the
   * `redirect` parameter when it is non-empty and protected, else `/dashboard`;
   * the target never carries a `redirect` parameter of its own.
   */
  function PostLoginTarget(tables: RouteTables, redirectParam: Option<string>): (loc: Location)
    ensures loc.redirectParam == None
    ensures loc.path == DefaultLanding || (Some(loc.path) == redirectParam && IsProtected(tables, loc.path))
    ensures NonEmpty(redirectParam) && IsProtected(tables, redirectParam.value) ==> loc.path == redirectParam.value
  {
    if NonEmpty(redirectParam) && SomePrefix(tables.protectedRoutes, redirectParam.value)
    then Location(redirectParam.value, None)
    else Location(DefaultLanding, None)
  }

  /**
   * The gate's decision for one request, as a response value: a pass-through
   * or a redirect (never a reply of its own), identity headers only on a
   * pass-through, and no cookie change except expiring `auth-token` on a
   * redirect.
   */
  function Decide(tables: RouteTables, req: Request, verify: Verifier, now: int): (r: ResponseValue)
    ensures r.action.Continue? || r.action.RedirectTo?
    ensures r.headers != map[] ==> r.action.Continue?
    ensures r.cookies == map[] || (r.cookies == map[AuthCookie := Expire] && r.action.RedirectTo?)
  {
    var path := req.pathname;
    if Bypassed(path) then ResponseValue(Continue, map[], map[])
    else
      var session := SessionOf(req, verify, now);
      if IsProtected(tables, path) && session.Rejected? then
        ResponseValue(RedirectTo(Location(LoginPath, None)), map[], map[AuthCookie := Expire])
      else if IsProtected(tables, path) && !session.Verified? then
        ResponseValue(RedirectTo(Location(LoginPath, Some(path))), map[], map[])
      else if IsAuthOnly(tables, path) && session.Verified? then
        ResponseValue(RedirectTo(PostLoginTarget(tables, req.redirectParam)), map[], map[])
      else
        ResponseValue(Continue, IdentityHeaders(session), map[])
  }

  /**
   * `middleware(request)`, step by step: the flags `isAuthenticated` and
   * `userPayload` are updated as the token is checked, and the returned
   * response object has its cookies or headers set in place.
   */
  method Middleware(tables: RouteTables, req: Request, verify: Verifier, now: int) returns (response: Response)
    ensures fresh(response)
    ensures response.Snapshot() == Decide(tables, req, verify, now)
  {
    var pathname := req.pathname;
    if StartsWith(pathname, "/_next") || StartsWith(pathname, "/api") || '.' in pathname {
      response := new Response.Next();
      return;
    }

    var isProtectedRoute := SomePrefix(tables.protectedRoutes, pathname);
    var isPublicRoute := IsPublic(tables, pathname);
    var isAuthOnlyRoute := pathname in tables.authOnlyRoutes;

    var token := TokenOf(req);
    var isAuthenticated := false;
    var userPayload: Option<Payload> := None;

    if NonEmpty(token) {
      var verdict := verify(token.value, NoChecks);
      if verdict.Accept? {
        isAuthenticated := true;
        userPayload := Some(verdict.payload);
        if ExpiredAt(verdict.payload, now) {
          isAuthenticated := false;
        }
      } else {
        isAuthenticated := false;
        var cleared := new Response.Redirect(Location(LoginPath, None));
        cleared.DeleteCookie(AuthCookie);
        if isProtectedRoute {
          response := cleared;
          return;
        }
      }
    }

    if isProtectedRoute && !isAuthenticated {
      response := new Response.Redirect(Location(LoginPath, Some(pathname)));
      return;
    }

    if isAuthOnlyRoute && isAuthenticated {
      var redirectUrl := req.redirectParam;
      if NonEmpty(redirectUrl) && SomePrefix(tables.protectedRoutes, redirectUrl.value) {
        response := new Response.Redirect(Location(redirectUrl.value, None));
        return;
      }
      response := new Response.Redirect(Location(DefaultLanding, None));
      return;
    }

    response := new Response.Next();
    if isAuthenticated && userPayload.Some? {
      response.SetHeader("x-user-id", UserIdOf(userPayload.value));
      response.SetHeader("x-user-authenticated", "true");
    }
  }
  // ---------------------------------------------------------------------------
  // Properties of the gate
  // ---------------------------------------------------------------------------

  /** Bypassed paths pass through untouched, whatever the cookie, the verifier or the clock. */
  lemma BypassPassesThrough(tables: RouteTables, req: Request, verify: Verifier, now: int)
    requires Bypassed(req.pathname)
    ensures Decide(tables, req, verify, now) == ResponseValue(Continue, map[], map[])
  {
  }

  /**
   * The bypass is checked first, so a protected path containing a dot is let
   * through without any session: the gate does not guard `/admin/report.pdf`.
   */
  lemma DottedProtectedPathBypasses(verify: Verifier, now: int)
    ensures IsProtected(Tables, "/admin/report.pdf")
    ensures Decide(Tables, Request("/admin/report.pdf", map[], None), verify, now) == ResponseValue(Continue, map[], map[])
  {
    ConfiguredClassification("/admin/report.pdf");
    assert "/admin/report.pdf"[13] == '.';
  }

  /** With the configured tables: protected means one of four prefixes, auth-only means exactly `/login` or `/register`, never both. */
  lemma ConfiguredClassification(path: string)
    ensures IsProtected(Tables, path) <==>
      StartsWith(path, "/dashboard") || StartsWith(path, "/profile") || StartsWith(path, "/admin") || StartsWith(path, "/settings")
    ensures IsAuthOnly(Tables, path) <==> path == "/login" || path == "/register"
    ensures !(IsProtected(Tables, path) && IsAuthOnly(Tables, path))
  {
    var routes := Tables.protectedRoutes;
    if IsProtected(Tables, path) {
      var i :| 0 <= i < |routes| && StartsWith(path, routes[i]);
      assert i == 0 || i == 1 || i == 2 || i == 3;
    }
    if StartsWith(path, "/dashboard") { assert StartsWith(path, routes[0]); }
    if StartsWith(path, "/profile") { assert StartsWith(path, routes[1]); }
    if StartsWith(path, "/admin") { assert StartsWith(path, routes[2]); }
    if StartsWith(path, "/settings") { assert StartsWith(path, routes[3]); }
    if path == "/login" || path == "/register" {
      assert path[1] == 'l' || path[1] == 'r';
      assert !StartsWith(path, "/dashboard") && !StartsWith(path, "/profile");
      assert !StartsWith(path, "/admin") && !StartsWith(path, "/settings");
    }
  }

  /** Matching is by prefix, so `/administrator` is protected, and `/login/` is not auth-only. */
  lemma PrefixAndExactMatching()
    ensures IsProtected(Tables, "/administrator")
    ensures !IsAuthOnly(Tables, "/login/")
  {
  }

  /** `publicRoutes` is computed but has no effect on any outcome. */
  lemma PublicRoutesIgnored(tables: RouteTables, other: seq<string>, req: Request, verify: Verifier, now: int)
    ensures Decide(tables.(publicRoutes := other), req, verify, now) == Decide(tables, req, verify, now)
  {
  }

  /** A token that expires at this very second still counts as authenticated. */
  lemma ExpiryAtNowStillAuthenticated(req: Request, verify: Verifier, now: int, p: Payload)
    requires NonEmpty(TokenOf(req)) && verify(TokenOf(req).value, NoChecks) == Accept(p)
    requires p.exp == Some(now)
    ensures SessionOf(req, verify, now) == Verified(p)
  {
  }

  /** A verifier that already refuses expired payloads makes the middleware's own expiry check redundant. */
  lemma RedundantExpiryCheck(req: Request, verify: Verifier, now: int)
    requires forall token: string :: verify(token, NoChecks).Accept? ==> !ExpiredAt(verify(token, NoChecks).payload, now)
    ensures SessionOf(req, verify, now).Verified? <==> NonEmpty(TokenOf(req)) && verify(TokenOf(req).value, NoChecks).Accept?
  {
  }

  /** A token the verifier throws on, on a protected route: redirect to a bare `/login` and expire the cookie. */
  lemma RejectedOnProtected(tables: RouteTables, req: Request, verify: Verifier, now: int)
    requires !Bypassed(req.pathname) && IsProtected(tables, req.pathname)
    requires SessionOf(req, verify, now).Rejected?
    ensures Decide(tables, req, verify, now) ==
      ResponseValue(RedirectTo(Location(LoginPath, None)), map[], map[AuthCookie := Expire])
  {
  }

  /** Elsewhere a rejected token leaves the cookie alone and acts exactly as if there were no cookie. */
  lemma RejectedElsewhereIsAnonymous(tables: RouteTables, req: Request, verify: Verifier, now: int)
    requires !IsProtected(tables, req.pathname)
    requires SessionOf(req, verify, now).Rejected?
    ensures Decide(tables, req, verify, now).cookies == map[]
    ensures Decide(tables, req, verify, now) == Decide(tables, req.(cookies := req.cookies - {AuthCookie}), verify, now)
  {
  }

  /** Protected route, no usable session and no rejection: redirect to `/login?redirect=<path>`. */
  lemma UnauthenticatedOnProtected(tables: RouteTables, req: Request, verify: Verifier, now: int)
    requires !Bypassed(req.pathname) && IsProtected(tables, req.pathname)
    requires SessionOf(req, verify, now).NoToken? || SessionOf(req, verify, now).Expired?
    ensures Decide(tables, req, verify, now) ==
      ResponseValue(RedirectTo(Location(LoginPath, Some(req.pathname))), map[], map[])
  {
  }

  /** An authenticated visitor of an auth-only route goes to the protected `redirect` parameter, else to `/dashboard`. */
  lemma AuthOnlyRedirect(tables: RouteTables, req: Request, verify: Verifier, now: int)
    requires !Bypassed(req.pathname) && IsAuthOnly(tables, req.pathname)
    requires SessionOf(req, verify, now).Verified?
    ensures var r := Decide(tables, req, verify, now);
      && r.action.RedirectTo? && r.headers == map[] && r.cookies == map[]
      && r.action.location.redirectParam == None
      && (if NonEmpty(req.redirectParam) && IsProtected(tables, req.redirectParam.value)
          then r.action.location.path == req.redirectParam.value
          else r.action.location.path == DefaultLanding)
  {
  }

  /** With the configured tables, that target is always a protected path, so never `/login` or `/register`. */
  lemma AuthOnlyTargetIsProtected(redirectParam: Option<string>)
    ensures IsProtected(Tables, PostLoginTarget(Tables, redirectParam).path)
    ensures PostLoginTarget(Tables, redirectParam).path != "/login"
    ensures PostLoginTarget(Tables, redirectParam).path != "/register"
  {
    var target := PostLoginTarget(Tables, redirectParam).path;
    ConfiguredClassification(target);
    ConfiguredClassification(DefaultLanding);
  }

  /** Identity headers are set exactly on pass-throughs of authenticated requests, and say who the user is. */
  lemma HeadersIffAuthenticated(tables: RouteTables, req: Request, verify: Verifier, now: int)
    ensures var r := Decide(tables, req, verify, now);
      r.headers != map[] <==> !Bypassed(req.pathname) && r.action.Continue? && SessionOf(req, verify, now).Verified?
    ensures var r := Decide(tables, req, verify, now);
      r.headers != map[] ==>
        r.headers == map["x-user-id" := UserIdOf(SessionOf(req, verify, now).payload), "x-user-authenticated" := "true"]
  {
    var r := Decide(tables, req, verify, now);
    if !Bypassed(req.pathname) && r.action.Continue? && SessionOf(req, verify, now).Verified? {
      assert "x-user-authenticated" in r.headers;
    }
  }

  /** Fail-closed: a protected, non-bypassed path is only let through for an authenticated request. */
  lemma FailClosed(tables: RouteTables, req: Request, verify: Verifier, now: int)
    requires !Bypassed(req.pathname) && IsProtected(tables, req.pathname)
    ensures Decide(tables, req, verify, now).action.Continue? ==> SessionOf(req, verify, now).Verified?
  {
  }

  /** The only cookie change the gate ever makes is expiring `auth-token`, on a protected route whose token was rejected. */
  lemma CookieClearedOnlyOnProtected(tables: RouteTables, req: Request, verify: Verifier, now: int)
    ensures var r := Decide(tables, req, verify, now);
      r.cookies != map[] ==>
        && r.cookies == map[AuthCookie := Expire]
        && !Bypassed(req.pathname) && IsProtected(tables, req.pathname)
        && SessionOf(req, verify, now).Rejected?
  {
  }

  /** The request a browser makes when it follows a redirect, with the response's cookie changes applied. */
  function FollowRedirect(req: Request, r: ResponseValue): Request
    requires r.action.RedirectTo?
  {
    Request(r.action.location.path, ApplyCookies(req.cookies, r.cookies), r.action.location.redirectParam)
  }

  /**
   * The default branch: a request passes through exactly when it is bypassed,
   * or is neither an unauthenticated request for a protected path nor an
   * authenticated one for an auth-only path; a gated pass-through carries the
   * identity headers of its session (none without one).
   */
  lemma OtherwisePasses(tables: RouteTables, req: Request, verify: Verifier, now: int)
    ensures var session := SessionOf(req, verify, now);
      Decide(tables, req, verify, now).action.Continue? <==>
        || Bypassed(req.pathname)
        || (&& !(IsProtected(tables, req.pathname) && !session.Verified?)
            && !(IsAuthOnly(tables, req.pathname) && session.Verified?))
    ensures var session := SessionOf(req, verify, now);
      && !Bypassed(req.pathname)
      && !(IsProtected(tables, req.pathname) && !session.Verified?)
      && !(IsAuthOnly(tables, req.pathname) && session.Verified?)
      ==> Decide(tables, req, verify, now) == ResponseValue(Continue, IdentityHeaders(session), map[])
  {
  }

  /** No redirect loops: with the configured tables, following any redirect of the gate (same verifier and clock) passes. */
  lemma NoRedirectLoop(req: Request, verify: Verifier, now: int)
    requires Decide(Tables, req, verify, now).action.RedirectTo?
    ensures Decide(Tables, FollowRedirect(req, Decide(Tables, req, verify, now)), verify, now).action == Continue
  {
    ConfiguredClassification(req.pathname);
    if IsProtected(Tables, req.pathname) {
      LoginRedirectPasses(req, verify, now);
    } else {
      PostLoginRedirectPasses(req, verify, now);
    }
  }

  /** A redirect away from a protected path goes to `/login`, which the same request state does not open as authenticated. */
  lemma LoginRedirectPasses(req: Request, verify: Verifier, now: int)
    requires Decide(Tables, req, verify, now).action.RedirectTo?
    requires IsProtected(Tables, req.pathname)
    ensures Decide(Tables, FollowRedirect(req, Decide(Tables, req, verify, now)), verify, now).action == Continue
  {
    var r := Decide(Tables, req, verify, now);
    var next := FollowRedirect(req, r);
    ConfiguredClassification(req.pathname);
    assert !Bypassed(req.pathname);
    assert r.action.location.path == LoginPath;
    LoginPathIsAuthOnly();
    if r.cookies == map[] {
      assert next.cookies == req.cookies;
      assert !SessionOf(req, verify, now).Verified?;
      assert SessionOf(next, verify, now) == SessionOf(req, verify, now);
    } else {
      assert TokenOf(next) == None;
    }
    assert !SessionOf(next, verify, now).Verified?;
  }

  /** `/login` is gated, auth-only and not protected. */
  lemma LoginPathIsAuthOnly()
    ensures !Bypassed(LoginPath) && !IsProtected(Tables, LoginPath) && IsAuthOnly(Tables, LoginPath)
  {
    ConfiguredClassification(LoginPath);
    assert LoginPath == ['/', 'l', 'o', 'g', 'i', 'n'];
  }

  /** The post-login redirect of an auth-only path goes to a protected path, which the same session opens. */
  lemma PostLoginRedirectPasses(req: Request, verify: Verifier, now: int)
    requires Decide(Tables, req, verify, now).action.RedirectTo?
    requires !IsProtected(Tables, req.pathname)
    ensures Decide(Tables, FollowRedirect(req, Decide(Tables, req, verify, now)), verify, now).action == Continue
  {
    var r := Decide(Tables, req, verify, now);
    var next := FollowRedirect(req, r);
    AuthOnlyTargetIsProtected(req.redirectParam);
    ConfiguredClassification(next.pathname);
    assert next.cookies == req.cookies;
    assert SessionOf(next, verify, now) == SessionOf(req, verify, now);
  }

  /** A verifier that honours issuer and audience checks yet accepts a token issued for another application. */
  function ForeignIssuerVerifier(p: Payload): Verifier
  {
    (token: string, checks: ClaimChecks) => if Satisfies(p, checks) then Accept(p) else Reject
  }

  /**
   * The gate does not check issuer or audience while `getCurrentUser` does:
   * a token from another issuer opens `/dashboard` (with identity headers)
   * and yet the page's accessor sees no user.
   */
  lemma GateIgnoresIssuerAndAudience(token: string, now: int)
    requires token != ""
    ensures var p := Payload(Some("1"), None, None, None, None, None, Some("another-app"), Some(Audience));
      var verify := ForeignIssuerVerifier(p);
      var req := Request("/dashboard", map[AuthCookie := token], None);
      && EnforcesChecks(verify)
      && Decide(Tables, req, verify, now) ==
           ResponseValue(Continue, map["x-user-id" := "1", "x-user-authenticated" := "true"], map[])
      && UserFromToken(Some(token), verify) == None
  {
    var p := Payload(Some("1"), None, None, None, None, None, Some("another-app"), Some(Audience));
    var req := Request("/dashboard", map[AuthCookie := token], None);
    ConfiguredClassification("/dashboard");
    assert !Bypassed("/dashboard") by {
      assert "/dashboard" == ['/', 'd', 'a', 's', 'h', 'b', 'o', 'a', 'r', 'd'];
      assert "/dashboard"[1] != "/_next"[1] && "/dashboard"[1] != "/api"[1];
    }
    assert IsAuthOnly(Tables, "/dashboard") == false;
    assert TokenOf(req) == Some(token);
  }
}
