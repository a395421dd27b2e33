/**
  The edge middleware: dashboard paths need an `adminToken` cookie, and the
  login and register pages send a visitor who has one to the dashboard.
  Only the cookie's presence is looked at, never its validity.
*/
module Middleware {
  import opened Http

  datatype Decision = Next | Redirect(location: string)

  predicate StartsWith(s: string, prefix: string) {
    |prefix| <= |s| && s[..|prefix|] == prefix
  }

  const DASHBOARD := "/admin/dashboard"
  const LOGIN_PAGE := "/admin/login"
  const REGISTER_PAGE := "/admin/register"

  predicate Protected(pathname: string) {
    StartsWith(pathname, DASHBOARD)
  }

  predicate AuthPage(pathname: string) {
    pathname == LOGIN_PAGE || pathname == REGISTER_PAGE
  }

  function Route(pathname: string, jar: CookieJar): (d: Decision)
    ensures d == Redirect(LOGIN_PAGE) <==> Protected(pathname) && !Present(CookieValue(jar, ADMIN_COOKIE))
    ensures d == Redirect(DASHBOARD) <==> AuthPage(pathname) && Present(CookieValue(jar, ADMIN_COOKIE))
    ensures d.Next? <==>
      !(Protected(pathname) && !Present(CookieValue(jar, ADMIN_COOKIE)))
      && !(AuthPage(pathname) && Present(CookieValue(jar, ADMIN_COOKIE)))
  {
    if Protected(pathname) && !Present(CookieValue(jar, ADMIN_COOKIE)) then
      Redirect(LOGIN_PAGE)
    else if AuthPage(pathname) && Present(CookieValue(jar, ADMIN_COOKIE)) then
      Redirect(DASHBOARD)
    else
      Next
  }

  /** The decision depends on whether the cookie is there, not on its value. */
  lemma OnlyPresenceMatters(pathname: string, jar1: CookieJar, jar2: CookieJar)
    requires Present(CookieValue(jar1, ADMIN_COOKIE)) == Present(CookieValue(jar2, ADMIN_COOKIE))
    ensures Route(pathname, jar1) == Route(pathname, jar2)
  {
  }

  /** No path is both under the dashboard and one of the two auth pages. */
  lemma BranchesExclusive(pathname: string)
    ensures !(Protected(pathname) && AuthPage(pathname))
  {
  }
}
