/**
 * The edge route guard: a decision from the request path and the `token` cookie
 * to "continue" or "redirect", made before any admin page is rendered.
 */
module RouteGuard {
  import opened Util

  datatype Decision = Next | Redirect(target: string)

  const LoginPath := "/potal-campuseye3x101"
  const DashboardPath := "/admin/dashboard"

  /** The protection test: a plain prefix check, so "/administrator" counts as protected. */
  predicate IsProtected(pathname: string) {
    "/admin" <= pathname || "/superadmin" <= pathname
  }

  /** Cookie presence is a truthiness test: a missing cookie and an empty value are alike. */
  predicate HasToken(token: Option<string>) {
    token.Some? && token.value != ""
  }

  /**
   * The middleware's decision. A protected path without a token goes to the
   * login page; the login page with a token goes to the dashboard; every
   * other request continues.
   */
  function Middleware(pathname: string, token: Option<string>): (d: Decision)
    ensures d.Redirect? ==> d.target == LoginPath || d.target == DashboardPath
    ensures d == Redirect(LoginPath) <==> IsProtected(pathname) && !HasToken(token)
    ensures d == Redirect(DashboardPath) <==> pathname == LoginPath && HasToken(token)
    ensures d == Next <==> (IsProtected(pathname) ==> HasToken(token)) && (pathname == LoginPath ==> !HasToken(token))
  {
    if IsProtected(pathname) && !HasToken(token) then Redirect(LoginPath)
    else if pathname == LoginPath && HasToken(token) then Redirect(DashboardPath)
    else Next
  }

  /**
   * The paths the middleware is configured to run on ("/admin/:path*",
   * "/superadmin/:path*" and the login page); elsewhere the request continues untouched.
   */
  predicate InMatcher(pathname: string) {
    || pathname == "/admin" || "/admin/" <= pathname
    || pathname == "/superadmin" || "/superadmin/" <= pathname
    || pathname == LoginPath
  }

  /** What a request experiences: the middleware where the matcher selects it, pass-through elsewhere. */
  function Guard(pathname: string, token: Option<string>): (d: Decision)
    ensures !InMatcher(pathname) ==> d == Next
    ensures InMatcher(pathname) ==> d == Middleware(pathname, token)
  {
    if InMatcher(pathname) then Middleware(pathname, token) else Next
  }

  /** The login page carries neither protected prefix, so the two redirect rules never both apply. */
  lemma RedirectRulesExclusive(pathname: string, token: Option<string>)
    ensures !(IsProtected(pathname) && !HasToken(token) && pathname == LoginPath && HasToken(token))
    ensures !IsProtected(LoginPath)
  {
    assert LoginPath[1] == 'p' && "/admin"[1] == 'a' && "/superadmin"[1] == 's';
  }

  /** Following a redirect with the same cookie is let through: the guard never loops. */
  lemma NoRedirectLoop(pathname: string, token: Option<string>)
    requires Middleware(pathname, token).Redirect?
    ensures Middleware(Middleware(pathname, token).target, token) == Next
    ensures Guard(Middleware(pathname, token).target, token) == Next
  {
    RedirectRulesExclusive(pathname, token);
    assert "/admin" <= DashboardPath && "/admin/" <= DashboardPath;
  }

  /** Every protected path that the matcher selects is turned away without a token, and an empty cookie is no token. */
  lemma ProtectedNeedsToken(pathname: string)
    requires InMatcher(pathname) && pathname != LoginPath
    ensures Guard(pathname, None) == Redirect(LoginPath)
    ensures Guard(pathname, Some("")) == Redirect(LoginPath)
  {
    if "/admin/" <= pathname {
      assert pathname[..6] == "/admin/"[..6];
    } else if "/superadmin/" <= pathname {
      assert pathname[..11] == "/superadmin/"[..11];
    }
  }

  /**
   * "/administrator" passes the prefix test of the middleware but lies outside
   * the configured matcher, so in practice it is never guarded.
   */
  lemma AdministratorPrefix()
    ensures IsProtected("/administrator")
    ensures Middleware("/administrator", None) == Redirect(LoginPath)
    ensures Guard("/administrator", None) == Next
  {
    var p := "/administrator";
    assert "/admin" <= p;
    assert p[6] == 'i' && "/admin/"[6] == '/';
    assert p[1] == 'a' && "/superadmin/"[1] == 's' && LoginPath[1] == 'p';
  }
}
