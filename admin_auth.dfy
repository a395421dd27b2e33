/**
  The admin gate (`getAdminFromCookie`): the `adminToken` cookie must be
  present, verify, and carry the role "admin"; the verified claims are then
  returned as they are.
*/
module AdminAuth {
  import opened Wrappers
  import opened Capabilities
  import opened Http

  function GetAdminFromCookie(jar: CookieJar, verify: string -> Option<AdminClaims>): (r: Option<AdminClaims>)
    ensures r.Some? <==>
      && Present(CookieValue(jar, ADMIN_COOKIE))
      && verify(CookieValue(jar, ADMIN_COOKIE)).Some?
      && verify(CookieValue(jar, ADMIN_COOKIE)).value.role == "admin"
    ensures r.Some? ==> r == verify(CookieValue(jar, ADMIN_COOKIE))
  {
    var token := CookieValue(jar, ADMIN_COOKIE);
    if !Present(token) then None
    else
      match verify(token)
      case None => None
      case Some(payload) => if payload.role != "admin" then None else Some(payload)
  }
}
