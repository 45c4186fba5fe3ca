# Cookie-based JWT authentication: a verified model of its policy core

This project models the access-control core of a small web application that
authenticates users with a JSON Web Token kept in an `auth-token` cookie:

- **the request gate** (`middleware.ts`), run before every page: it skips
  framework, API and file-like paths, classifies the path as protected
  (prefixes `/dashboard`, `/profile`, `/admin`, `/settings`) or auth-only
  (exactly `/login`, `/register`), checks the cookie, and then lets the
  request through (with `x-user-id` / `x-user-authenticated` headers when
  authenticated) or redirects it;
- **the login endpoint** (`app/api/auth/login/route.ts`): body validation, a
  first-match lookup in a fixed table of two demo accounts, a generic 401, and
  on success a signed token in the session cookie;
- **the session accessor and cookie helpers** (`lib/auth.ts`): the claims a
  new token carries, `verifyJWT`, `getCurrentUser`, `isAuthenticated`,
  `requireAuth`, `setAuthCookie`, `removeAuthCookie`.

Files: `wrappers.dfy` (Option, Result), `http.dfy` (the framework's response
object and cookie store as classes, plus value snapshots of a response),
`auth.dfy`, `gate.dfy`, `login.dfy`, and `flows.dfy` (how a login's cookie is
later seen by the gate and the accessor).

The JWT library is abstract. Verification is a parameter
`Verifier = (token, ClaimChecks) -> Verdict` with `Verdict = Accept(payload) | Reject`;
`ClaimChecks` carries the issuer/audience options `jwtVerify` is called with
(none in the gate, `your-app` / `your-app-users` in `verifyJWT`). Signing is a
parameter `Signer = Payload -> string`. The clock is an integer `now`
(seconds), and `NODE_ENV === "production"` is a boolean `production`.

The two imperative bodies keep their form: `Gate.Middleware` updates the
`isAuthenticated`/`userPayload` flags step by step and sets headers or
deletes the cookie on a `Response` object in place; `Login.Post` builds the
JSON response and then sets the cookie on it. Each is proved equal to a pure
decision function (`Gate.Decide`, `Login.Respond`), and the properties are
lemmas about those functions. Both are total functions: apart from the
framework exceptions listed under "Left out" (a header value that
`headers.set` refuses), every request gets exactly one outcome.

The model follows the code in these details:

- the bypass skips every path containing `.`, not only file extensions, so a
  protected path such as `/admin/report.pdf` is never gated
  (`Gate.DottedProtectedPathBypasses`);
- the gate calls the verifier without issuer or audience checks
  (`middleware.ts:45-49`); only `verifyJWT` checks them
  (`Gate.GateIgnoresIssuerAndAudience` exhibits the difference);
- a missing `role` has no default;
- the identity headers are set on the pass-through response, not on a
  forwarded request;
- the `publicRoutes` table is computed and never used
  (`Gate.PublicRoutesIgnored`);
- the redundant expiry check uses JavaScript truthiness, so for a token the
  verifier accepted an `exp` of `0` is not checked at all, and `exp == now`
  still counts as authenticated.

## Model

| member | source | states |
|---|---|---|
| Gate.Bypassed | middleware.ts:21-27 | a path is skipped iff it starts with `/_next` or `/api` or contains `.` anywhere |
| Gate.DottedProtectedPathBypasses | middleware.ts:21-27 | `/admin/report.pdf` is a protected path, yet with no cookie at all it passes through untouched |
| Gate.UserIdOf | middleware.ts:106 | `x-user-id` is `sub` when non-empty, else `userId`, and is `""` exactly when both are missing or empty |
| Gate.PostLoginTarget | middleware.ts:87-95 | the post-login target is `/dashboard` or the `redirect` parameter itself when that is protected; a non-empty protected parameter is always taken; the target carries no `redirect` |
| Gate.Decide | middleware.ts:17-112 | the gate only passes through or redirects; identity headers only on a pass-through; the only cookie directive is expiring `auth-token`, and only with a redirect |
| Gate.SomePrefix | middleware.ts:30-32 | `routes.some(r => path.startsWith(r))` is true iff some table entry is a prefix of the path |
| Gate.SessionOf | middleware.ts:37-58 | no session for a missing or empty cookie; rejected iff the verifier throws; authenticated iff the verifier accepts and the strict `exp < now` check (skipped for a falsy `exp`) does not fire; issuer and audience play no part |
| Gate.Middleware | middleware.ts:17-112 | the step-by-step middleware (flags, response mutated in place) returns a fresh response equal to the gate's decision for every request |
| Gate.BypassPassesThrough | middleware.ts:21-27 | paths starting with `/_next` or `/api`, or containing `.`, pass through with no headers and no cookie change, whatever the cookie holds |
| Gate.ConfiguredClassification | middleware.ts:11-34 | protected iff one of the four prefixes; auth-only iff exactly `/login` or `/register`; no path is both |
| Gate.PrefixAndExactMatching | middleware.ts:30-34 | `/administrator` is protected (prefix match); `/login/` is not auth-only (exact match) |
| Gate.PublicRoutesIgnored | middleware.ts:33 | replacing the `publicRoutes` table changes no outcome |
| Gate.ExpiryAtNowStillAuthenticated | middleware.ts:55-58 | a payload whose `exp` equals `now` is still authenticated |
| Gate.RedundantExpiryCheck | middleware.ts:54-58 | if the verifier never accepts an expired payload, the extra check changes nothing |
| Gate.RejectedOnProtected | middleware.ts:59-71 | a rejected token on a protected route redirects to `/login` without `redirect` and expires `auth-token` |
| Gate.RejectedElsewhereIsAnonymous | middleware.ts:59-71 | off protected routes a rejected token leaves the cookie alone and the outcome is the same as with no cookie |
| Gate.UnauthenticatedOnProtected | middleware.ts:77-82 | no cookie or an expired payload on a protected route redirects to `/login?redirect=<path>` |
| Gate.AuthOnlyRedirect | middleware.ts:85-96 | an authenticated request for an auth-only route redirects to the `redirect` parameter when it is non-empty and protected, else to `/dashboard` |
| Gate.AuthOnlyTargetIsProtected | middleware.ts:88-95 | with the configured tables that target is always protected, hence never `/login` or `/register`, as a path string (dot-segment resolution by `new URL` is not modelled) |
| Gate.HeadersIffAuthenticated | middleware.ts:99-111 | identity headers appear iff the request is authenticated and passes through; `x-user-id` is `sub`, else `userId`, else `""`, with `x-user-authenticated: true` |
| Gate.FailClosed | middleware.ts:59-82 | a non-bypassed protected path passes through only when authenticated |
| Gate.CookieClearedOnlyOnProtected | middleware.ts:64-70 | the only cookie change is expiring `auth-token`, and only on a protected route with a rejected token |
| Gate.OtherwisePasses | middleware.ts:98-111 | a request passes through iff it is bypassed, or is neither unauthenticated on a protected path nor authenticated on an auth-only path; a gated pass-through carries its session's identity headers and no cookie change |
| Gate.NoRedirectLoop | middleware.ts:59-96 | with the configured tables, the request that follows any redirect (cookie changes applied) passes through, for redirect targets taken as path strings (dot-segment resolution by `new URL` is not modelled) |
| Gate.GateIgnoresIssuerAndAudience | middleware.ts:45-49 | a verifier that honours issuer/audience checks still lets a foreign-issuer token open `/dashboard`, while `getCurrentUser` sees no user |
| Login.Find | app/api/auth/login/route.ts:33-35 | `validUsers.find`: the first entry whose email and password are strictly equal to the body's fields, none iff no entry matches |
| Login.Respond | app/api/auth/login/route.ts:4-81 | every reply is JSON with no headers and status 200, 400, 401 or 500; the body is the user summary iff 200; `auth-token` is set iff 200, otherwise no cookie; 500 iff the body is not JSON or is `null` |
| Login.Post | app/api/auth/login/route.ts:4-81 | the handler builds a fresh response, sets the cookie on it in place, and ends equal to the route's reply for every body |
| Login.UnreadableBodyIsInternalError | app/api/auth/login/route.ts:74-80 | a body that is not JSON, or JSON `null`, gets 500 `Internal server error` |
| Login.MissingCredentialsIff | app/api/auth/login/route.ts:9-14 | 400 `Email and password are required` exactly when email or password is falsy, before any lookup, with no cookie |
| Login.AtMostOneMatch | app/api/auth/login/route.ts:18-31 | the table's emails differ, so at most one entry matches |
| Login.SucceedsIff | app/api/auth/login/route.ts:18-42 | 200 exactly when both fields are strings equal to one entry's email and password |
| Login.FailedLookupIsGeneric | app/api/auth/login/route.ts:37-42 | every 401 is the same reply `Invalid email or password` with no cookie, whichever credential was wrong |
| Login.SuccessShape | app/api/auth/login/route.ts:44-71 | a 200 echoes id, email and role of the matched entry (no password) and sets `auth-token` to the token signed over exactly its `sub`/`email`/`role`, httpOnly, secure iff production, lax, max-age 604800, path `/` |
| Login.CookieOptionsAgree | app/api/auth/login/route.ts:65-71 | the route's cookie attributes equal those of `setAuthCookie` |
| Login.CredentialsReply | app/api/auth/login/route.ts:18-42 | a body whose email and password are non-empty strings gets 200 with the summary of the entry equal on both, else the generic 401 |
| Login.DemoAccounts | app/api/auth/login/route.ts:18-31 | `email@example.com`/`password123` gives id `1`, role `user`; `admin@example.com`/`admin123` gives id `2`, role `admin`; `x@x.com`/`wrong` and a cross-account password give 401 |
| Auth.IssuedPayload | lib/auth.ts:27-39 | a new token's payload keeps the caller's `sub`/`email`/`role`, carries issuer `your-app` and audience `your-app-users`, and expires 7 days (the cookie's max-age) after `iat` |
| Auth.CreateJwt | lib/auth.ts:27-39 | for a verifier honest at time `t`, the token is non-empty, `verifyJWT` accepts it iff `t` is before its `exp`, and then returns exactly the issued payload |
| Auth.IssuedStampsIgnoreCaller | lib/auth.ts:27-36 | `iss`, `aud`, `iat` and `exp` do not depend on the caller's claims |
| Auth.VerifyJwt | lib/auth.ts:44-56 | null iff the verifier rejects (for any reason), else the payload unchanged; called with the app's issuer and audience |
| Auth.VerifiedPayloadHasAppClaims | lib/auth.ts:10-11 | with a verifier that enforces its checks, a non-null `verifyJWT` result has `iss = your-app` and `aud = your-app-users` |
| Auth.UserFromToken | lib/auth.ts:88-94 | null for a missing or empty token, else exactly `verifyJWT(token)` |
| Auth.GetCurrentUser | lib/auth.ts:85-99 | a user iff the store is available, holds a non-empty `auth-token`, and the verifier accepts it with the app's checks; every failure is null |
| Auth.IsAuthenticated | lib/auth.ts:104-107 | true iff there is a current user |
| Auth.RequireAuth | lib/auth.ts:112-120 | the current user when there is one, else the error `Authentication required` |
| Auth.AuthCookieOptions | lib/auth.ts:64-70 | httpOnly, sameSite `lax`, path `/`, max-age 604800, secure iff production |
| Auth.SetAuthCookie | lib/auth.ts:61-71 | only `auth-token` changes, to the token with those attributes, and the current user is then `verifyJWT(token)` |
| Auth.RemoveAuthCookie | lib/auth.ts:76-80 | only `auth-token` is removed, after which there is no current user, also when repeated |
| Flows.LoginThenGate | app/api/auth/login/route.ts:45-71 | with a verifier honest at a later time before the token's `exp`, the cookie of a successful login opens any protected page, with the user's id in `x-user-id` |
| Flows.LoginThenCurrentUser | lib/auth.ts:44-56 | with a verifier honest at a later time before the token's `exp`, `getCurrentUser` on that cookie returns the issued payload, whose issuer and audience pass the accessor's checks |
| Flows.LoginCookieExpires | middleware.ts:59-71 | from the token's `exp` on, the same cookie on a protected page is rejected: redirect to a bare `/login` and `auth-token` expired |

## Left out

- The JWT library's internals (HS256 signing, base64url and JSON parsing, the parsing of `"7d"`): signing and verification are parameters, so no sign/verify round trip is proved; `Auth.CreateJwt` and the `Flows` lemmas assume one as a hypothesis (`Auth.Honest`).
- `JWT_SECRET` and the other environment variables: the defaults are constants; the secret lives inside the signer and verifier; `NODE_ENV` is the `production` flag.
- `Date.now()`: the time is the `now` parameter in seconds; the verifier is taken to read the same clock.
- Logging with `console.log`/`console.error`.
- The `config.matcher` pattern of `middleware.ts`: a framework invocation filter; the gate's own bypass rule is modelled.
- URL resolution (`new URL(target, request.url)`): a redirect target is a path string plus an optional `redirect` parameter; a target that carries its own query string is not parsed, and dot segments are not removed (`redirect=/admin/../login` resolves to `/login`, which the path-string model of the post-login target does not see).
- Gate.UserIdOf: `sub` and `userId` are modelled as strings; JWT claims of other JSON types and `String()` conversion are not modelled, nor an array-valued `aud`; `headers.set` trims surrounding whitespace from the value and throws a `TypeError` for CR, LF, NUL or characters above U+00FF, which the model does not (the header carries the id unchanged).
- Login.Respond: exceptions from signing the token or setting the cookie are not modelled; only body-parsing failures (invalid JSON, JSON `null`) reach the 500 path.
- Auth.GetCurrentUser: `cookies()` throwing is modelled as a null store; which framework conditions make it throw is not.
- Auth.SetAuthCookie, Auth.RemoveAuthCookie: the store is always available and writable; `cookies()` rejecting, and `set`/`delete` throwing when called outside a Route Handler or Server Action, are not modelled.
- Redirect status codes and framework-added headers of `NextResponse` are not modelled; a response is its action, the headers the core sets and its cookie directives.
- app/api/auth/logout/route.ts, the pages under app/ and components/LogoutButton.tsx: a constant reply plus a cookie delete, rendering and client-side navigation, with no policy of their own.
- test-jwt.js: a console script whose checks depend only on the JWT library.
