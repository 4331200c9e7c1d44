/**
 * The edge middleware that guards the admin area: from the request path, the
 * deployment's environment, the access-token cookie and the auth service's
 * verdict on that token it decides whether the request goes through or is
 * redirected to the login page.
 */
module RouteGuard {
  import opened Wrappers
  import opened JsText

  const LoginPath := "/admin/login"
  const ResetPasswordPath := "/admin/reset-password"
  const AdminPrefix := "/admin"
  const AccessTokenCookie := "sb-access-token"

  datatype Decision = Next | Redirect(target: string)

  /** The two public settings the client is built from; unset is `None`. */
  datatype Env = Env(supabaseUrl: Option<string>, supabaseAnonKey: Option<string>)

  /** What `auth.getUser(token)` gives back: a user, an error, neither, or an
      exception. */
  datatype Verification = UserFound | VerifyError | NoUser | VerifyThrew

  /** A JavaScript truthiness test on an optional string: unset and `""` are
      both false. */
  predicate Truthy(s: Option<string>) {
    s.Some? && s.value != ""
  }

  /** `middleware(request)`. `clientThrows` says whether `createClient` throws
      on these settings; `verify` is the service's answer for the token, used
      only when one is sent. */
  function Middleware(pathname: string, env: Env, clientThrows: bool,
                      cookies: map<string, string>, verify: Verification): (d: Decision)
    ensures d.Redirect? ==> d.target == LoginPath
  {
    if pathname == LoginPath || pathname == ResetPasswordPath then Next
    else if StartsWith(pathname, AdminPrefix) then
      if !Truthy(env.supabaseUrl) || !Truthy(env.supabaseAnonKey) then Next
      else if clientThrows then Redirect(LoginPath)
      else
        var token := if AccessTokenCookie in cookies then Some(cookies[AccessTokenCookie]) else None;
        if !Truthy(token) then Redirect(LoginPath)
        else if verify == UserFound then Next
        else Redirect(LoginPath)
    else Next
  }

  /** A guarded request: under the admin prefix, not one of the two public
      pages, and with both settings present. */
  predicate Guarded(pathname: string, env: Env) {
    pathname != LoginPath && pathname != ResetPasswordPath && StartsWith(pathname, AdminPrefix) &&
    Truthy(env.supabaseUrl) && Truthy(env.supabaseAnonKey)
  }

  predicate HasToken(cookies: map<string, string>) {
    AccessTokenCookie in cookies && cookies[AccessTokenCookie] != ""
  }

  /** The login and reset pages always go through, so the redirect target is
      never itself redirected. */
  lemma PublicPagesPass(pathname: string, env: Env, clientThrows: bool,
                        cookies: map<string, string>, verify: Verification)
    requires pathname == LoginPath || pathname == ResetPasswordPath
    ensures Middleware(pathname, env, clientThrows, cookies, verify) == Next
  {
  }

  lemma RedirectTargetPasses(pathname: string, env: Env, clientThrows: bool,
                             cookies: map<string, string>, verify: Verification,
                             env': Env, clientThrows': bool,
                             cookies': map<string, string>, verify': Verification)
    requires Middleware(pathname, env, clientThrows, cookies, verify).Redirect?
    ensures var d := Middleware(pathname, env, clientThrows, cookies, verify);
      Middleware(d.target, env', clientThrows', cookies', verify') == Next
  {
  }

  /** Paths outside the admin area go through. */
  lemma OutsideAdminPasses(pathname: string, env: Env, clientThrows: bool,
                           cookies: map<string, string>, verify: Verification)
    requires !StartsWith(pathname, AdminPrefix)
    ensures Middleware(pathname, env, clientThrows, cookies, verify) == Next
  {
  }

  /** Without both settings even an admin page goes through. */
  lemma MissingSettingsPass(pathname: string, env: Env, clientThrows: bool,
                            cookies: map<string, string>, verify: Verification)
    requires !Truthy(env.supabaseUrl) || !Truthy(env.supabaseAnonKey)
    ensures Middleware(pathname, env, clientThrows, cookies, verify) == Next
  {
  }

  /** A guarded request goes through exactly when the client is built, a
      non-empty token is sent and the service finds its user; anything else
      (no cookie, an error, no user, an exception) redirects to login. */
  lemma GuardedPassesIffVerified(pathname: string, env: Env, clientThrows: bool,
                                 cookies: map<string, string>, verify: Verification)
    requires Guarded(pathname, env)
    ensures Middleware(pathname, env, clientThrows, cookies, verify) == Next <==>
      !clientThrows && HasToken(cookies) && verify == UserFound
    ensures Middleware(pathname, env, clientThrows, cookies, verify) != Next ==>
      Middleware(pathname, env, clientThrows, cookies, verify) == Redirect(LoginPath)
  {
  }

  /** The prefix test is textual: `/adminx` is guarded like `/admin/...`. */
  lemma PrefixIsTextual(env: Env, clientThrows: bool, verify: Verification)
    requires Truthy(env.supabaseUrl) && Truthy(env.supabaseAnonKey) && !clientThrows
    ensures Middleware("/adminx", env, clientThrows, map[], verify) == Redirect(LoginPath)
  {
    assert "/adminx"[..|AdminPrefix|] == AdminPrefix;
  }

  /** The `/admin/:path*` matcher: `/admin` itself or any path below it. */
  predicate MatcherApplies(pathname: string) {
    pathname == AdminPrefix || StartsWith(pathname, AdminPrefix + "/")
  }

  /** What a request meets: the middleware runs only on matched paths. */
  function Route(pathname: string, env: Env, clientThrows: bool,
                 cookies: map<string, string>, verify: Verification): (d: Decision)
    ensures !MatcherApplies(pathname) ==> d == Next
    ensures MatcherApplies(pathname) ==> d == Middleware(pathname, env, clientThrows, cookies, verify)
  {
    if MatcherApplies(pathname) then Middleware(pathname, env, clientThrows, cookies, verify) else Next
  }

  /** Every matched path passes the middleware's own prefix test, so its final
      fall-through is never reached; and `/adminx` never reaches it at all. */
  lemma MatchedPathsAreUnderPrefix(pathname: string)
    requires MatcherApplies(pathname)
    ensures StartsWith(pathname, AdminPrefix)
  {
    if pathname != AdminPrefix {
      assert pathname[..|AdminPrefix|] == (pathname[..|AdminPrefix| + 1])[..|AdminPrefix|];
    }
  }

  lemma AdminxIsNotMatched()
    ensures !MatcherApplies("/adminx")
  {
    assert "/adminx"[6] != (AdminPrefix + "/")[6];
  }

  /** The cookie the login page writes after signing in, with the session's
      access token and lifetime in seconds. */
  function LoginCookie(accessToken: string, expiresIn: int): string {
    AccessTokenCookie + "=" + accessToken + "; path=/; max-age=" + IntString(expiresIn) + "; SameSite=Lax"
  }

  /** The text of `s` before the first occurrence of `c`, and the text after it. */
  function SplitAt(s: string, c: char): (r: (string, string))
    ensures c !in r.0
    ensures c !in s ==> r == (s, [])
    ensures c in s ==> s == r.0 + [c] + r.1
  {
    if s == [] then ([], [])
    else if s[0] == c then ([], s[1..])
    else
      var t := SplitAt(s[1..], c);
      assert s == [s[0]] + s[1..];
      ([s[0]] + t.0, t.1)
  }

  /** The name and value a cookie string sets: the name runs to the first `=`,
      the value from there to the first `;`. */
  function CookiePair(cookie: string): (r: (string, string))
    ensures '=' !in r.0 && ';' !in r.1
    ensures '=' !in cookie ==> r == (cookie, [])
  {
    var nv := SplitAt(cookie, '=');
    (nv.0, SplitAt(nv.1, ';').0)
  }

  lemma {:induction false} SplitAtPrefix(a: string, c: char, b: string)
    requires c !in a
    ensures SplitAt(a + [c] + b, c) == (a, b)
  {
    if a == [] {
      assert a + [c] + b == [c] + b;
    } else {
      assert (a + [c] + b)[1..] == a[1..] + [c] + b;
      SplitAtPrefix(a[1..], c, b);
      assert [a[0]] + a[1..] == a;
    }
  }

  lemma CookiePairOf(name: string, value: string, rest: string)
    requires '=' !in name && ';' !in value
    ensures CookiePair(name + "=" + value + ";" + rest) == (name, value)
  {
    assert name + "=" + value + ";" + rest == name + ['='] + (value + [';'] + rest);
    SplitAtPrefix(name, '=', value + [';'] + rest);
    SplitAtPrefix(value, ';', rest);
  }

  /** The middleware reads the very cookie the login page writes: the name is
      `sb-access-token` and the value is the access token, which never holds a
      `;`. */
  lemma LoginCookieIsRead(accessToken: string, expiresIn: int)
    requires ';' !in accessToken
    ensures CookiePair(LoginCookie(accessToken, expiresIn)) == (AccessTokenCookie, accessToken)
  {
    var age := IntString(expiresIn);
    var rest := " path=/; max-age=" + age + "; SameSite=Lax";
    assert LoginCookie(accessToken, expiresIn) == AccessTokenCookie + "=" + accessToken + ";" + rest;
    assert '=' !in AccessTokenCookie by {
      assert forall i :: 0 <= i < |AccessTokenCookie| ==> AccessTokenCookie[i] != '=';
    }
    CookiePairOf(AccessTokenCookie, accessToken, rest);
  }
}
