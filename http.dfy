/**
 * The pieces of the web framework the core talks to: responses built with
 * `NextResponse` (a pass-through, a redirect or a JSON reply, whose headers and
 * cookies are then changed in place) and the request-scoped cookie store of
 * `cookies()`.
 */
module Http {
  import opened Wrappers

  /** A redirect target: a path plus the optional `redirect` query parameter. */
  datatype Location = Location(path: string, redirectParam: Option<string>)

  /** The attributes a `Set-Cookie` carries. */
  datatype CookieOptions = CookieOptions(httpOnly: bool, secure: bool, sameSite: string, maxAge: int, path: string)

  /** What a response tells the browser to do with one cookie. */
  datatype CookieDirective = SetTo(value: string, options: CookieOptions) | Expire

  /** The user object echoed by a successful login (it has no password field). */
  datatype UserSummary = UserSummary(id: string, email: string, role: string)

  /** The JSON bodies the login endpoint replies with. */
  datatype ReplyBody =
    | ErrorReply(error: string)
    | LoginReply(message: string, user: UserSummary)

  /** `NextResponse.next()`, `NextResponse.redirect(url)` and `NextResponse.json(body, {status})`. */
  datatype Action =
    | Continue
    | RedirectTo(location: Location)
    | Reply(status: int, body: ReplyBody)

  /** Everything the framework reads off a finished response. */
  datatype ResponseValue = ResponseValue(action: Action, headers: map<string, string>, cookies: map<string, CookieDirective>)

  /** A response object; the core builds one and then sets headers and cookies on it. */
  class Response {
    var action: Action
    var headers: map<string, string>
    var cookies: map<string, CookieDirective>

    constructor Next()
      ensures action == Continue && headers == map[] && cookies == map[]
    {
      action := Continue;
      headers := map[];
      cookies := map[];
    }

    constructor Redirect(to: Location)
      ensures action == RedirectTo(to) && headers == map[] && cookies == map[]
    {
      action := RedirectTo(to);
      headers := map[];
      cookies := map[];
    }

    constructor Json(status: int, body: ReplyBody)
      ensures action == Reply(status, body) && headers == map[] && cookies == map[]
    {
      action := Reply(status, body);
      headers := map[];
      cookies := map[];
    }

    /** The response as the framework sees it once the core returns it. */
    function Snapshot(): ResponseValue
      reads this
    {
      ResponseValue(action, headers, cookies)
    }

    /** `response.headers.set(name, value)` */
    method SetHeader(name: string, value: string)
      modifies this
      ensures headers == old(headers)[name := value]
      ensures action == old(action) && cookies == old(cookies)
    {
      headers := headers[name := value];
    }

    /** `response.cookies.set(name, value, options)` */
    method SetCookie(name: string, value: string, options: CookieOptions)
      modifies this
      ensures cookies == old(cookies)[name := SetTo(value, options)]
      ensures action == old(action) && headers == old(headers)
    {
      cookies := cookies[name := SetTo(value, options)];
    }

    /** `response.cookies.delete(name)` */
    method DeleteCookie(name: string)
      modifies this
      ensures cookies == old(cookies)[name := Expire]
      ensures action == old(action) && headers == old(headers)
    {
      cookies := cookies[name := Expire];
    }
  }

  /** The browser's cookies (name to value) after it obeys a response's cookie directives. */
  function ApplyCookies(jar: map<string, string>, directives: map<string, CookieDirective>): (r: map<string, string>)
    ensures forall name | name in directives :: if directives[name].SetTo? then name in r && r[name] == directives[name].value else name !in r
    ensures forall name | name !in directives :: name in r <==> name in jar
    ensures forall name | name !in directives && name in jar :: r[name] == jar[name]
  {
    map name | name in jar.Keys + directives.Keys && !(name in directives && directives[name].Expire?) ::
      if name in directives then directives[name].value else jar[name]
  }

  /** One cookie held by the request-scoped store. */
  datatype StoredCookie = StoredCookie(value: string, options: CookieOptions)

  /** The cookie store returned by `cookies()`; writes to it are visible to later reads in the same request. */
  class CookieStore {
    var jar: map<string, StoredCookie>

    constructor (jar: map<string, StoredCookie>)
      ensures this.jar == jar
    {
      this.jar := jar;
    }

    /** `cookieStore.get(name)?.value` */
    function Get(name: string): (r: Option<string>)
      reads this
      ensures r.Some? <==> name in jar
      ensures r.Some? ==> r.value == jar[name].value
    {
      if name in jar then Some(jar[name].value) else None
    }

    /** `cookieStore.set(name, value, options)` */
    method Set(name: string, value: string, options: CookieOptions)
      modifies this
      ensures jar == old(jar)[name := StoredCookie(value, options)]
    {
      jar := jar[name := StoredCookie(value, options)];
    }

    /** `cookieStore.delete(name)` */
    method Delete(name: string)
      modifies this
      ensures jar == old(jar) - {name}
    {
      jar := jar - {name};
    }
  }
}
