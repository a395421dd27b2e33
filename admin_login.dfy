/**
  Admin login in two steps. `Login` checks the credentials and that the user
  is an admin of the tenant, then stages a `pending_admin_login` entry. The
  route forgets to await its token generator, so the key is built from the
  text of an unsettled Promise: it is the same for every admin login and
  draws no randomness, while the response carries that Promise serialized
  as `{}`. `Verify` checks the TOTP code, consumes the entry and sets an
  8-hour `adminToken` cookie; it issues no refresh token and no `auth_id`.
*/
module AdminLogin {
  import opened Wrappers
  import opened Capabilities
  import opened Durable
  import opened Ephemeral
  import opened Http
  import opened Stores
  import AdminAuth

  datatype AdminLoginRequest = AdminLoginRequest(email: string, password: string, customerId: Id)

  /** `${generateToken()}` without `await`. */
  const UNSETTLED_PROMISE := "[object Promise]"
  /** What a client sends back when it interpolates the `{}` it received. */
  const ECHOED_OBJECT := "[object Object]"
  const ADMIN_TTL: nat := 300
  const ADMIN_SESSION := "8h"
  const LOGIN_EXPIRED := "Login session expired or invalid. Please log in again."

  predicate AllFields(req: AdminLoginRequest) {
    Present(req.email) && Present(req.password) && Present(req.customerId)
  }

  /** The user holds an `admin` membership of the tenant. */
  predicate IsAdminOf(db: Db, u: User, customerId: Id) {
    MembershipOf(db.memberships, u.id, customerId).Some?
    && MembershipOf(db.memberships, u.id, customerId).value.role == AdminRole
  }

  /** Known email, admin of the tenant, right password: the three 401 checks, in order. */
  predicate Admitted(db: Db, req: AdminLoginRequest, env: Env) {
    UserByEmail(db.users, req.email).Some?
    && IsAdminOf(db, UserByEmail(db.users, req.email).value, req.customerId)
    && env.checkPassword(UserByEmail(db.users, req.email).value.password, req.password)
  }

  /** `user.totpSecret` is truthy. */
  predicate HasTotp(u: User) {
    u.totpSecret.Some? && Present(u.totpSecret.value)
  }

  /** The one key every admin login writes. */
  function PendingKey(): Key {
    PendingAdminLogin(UNSETTLED_PROMISE)
  }

  /** What a successful start stages: the admin's identity and secret, no redirect URL. */
  function AdminChallenge(u: User, customerId: Id): Entry
    requires u.totpSecret.Some?
  {
    Entry(AdminLoginPayload(u.id, u.email, customerId, AdminRole, u.totpSecret.value), ADMIN_TTL)
  }

  function Login(s: State, req: AdminLoginRequest, env: Env): (r: Outcome)
    requires s.Valid()
    ensures r.state.Valid() && Extends(s, r.state)
    // never writes the durable store: in particular it creates no membership
    ensures r.state.db == s.db
    ensures r.state.cache.Keys <= s.cache.Keys + {PendingKey()}
    ensures !AllFields(req) ==> r.response == Failure(400, ALL_FIELDS)
    // unknown email, missing or non-admin membership and wrong password look alike
    ensures AllFields(req) && !Admitted(s.db, req, env) ==> r.response == Failure(401, INVALID_CREDENTIALS)
    ensures (AllFields(req) && Admitted(s.db, req, env) && !HasTotp(UserByEmail(s.db.users, req.email).value)) ==>
      r.response == Failure(403, NO_TOTP)
    ensures r.response.status == 200 <==>
      AllFields(req) && Admitted(s.db, req, env) && HasTotp(UserByEmail(s.db.users, req.email).value)
    ensures r.response.status != 200 ==> r.state == s
    ensures r.response.status == 200 ==>
      && r.state.cache == s.cache[PendingKey() := AdminChallenge(UserByEmail(s.db.users, req.email).value, req.customerId)]
      && r.response == Response(200, AdminChallengeIssued, [])
  {
    if !AllFields(req) then Reject(s, 400, ALL_FIELDS)
    else if UserByEmail(s.db.users, req.email).None? then Reject(s, 401, INVALID_CREDENTIALS)
    else
      var u := UserByEmail(s.db.users, req.email).value;
      if !IsAdminOf(s.db, u, req.customerId) then Reject(s, 401, INVALID_CREDENTIALS)
      else if !env.checkPassword(u.password, req.password) then Reject(s, 401, INVALID_CREDENTIALS)
      else if !HasTotp(u) then Reject(s, 403, NO_TOTP)
      else Outcome(Response(200, AdminChallengeIssued, []), Stage(s, PendingKey(), AdminChallenge(u, req.customerId)))
  }

  /** The membership check comes first: a non-admin's password is never checked. */
  lemma {:induction false} NonAdminSkipsPasswordCheck(s: State, req: AdminLoginRequest, env: Env,
                                                      check: (PasswordHash, string) -> bool)
    requires s.Valid() && UserByEmail(s.db.users, req.email).Some?
    requires !IsAdminOf(s.db, UserByEmail(s.db.users, req.email).value, req.customerId)
    ensures Login(s, req, env.(checkPassword := check)) == Login(s, req, env)
  {
  }

  /** The session cookie: httpOnly, lax, 8 hours, secure in production. */
  function AdminCookie(token: string, env: Env): SetCookie {
    SetCookie(ADMIN_COOKIE, token, true, env.production, Lax, "/", EIGHT_HOURS_S)
  }

  /** The claims an admin session token is signed over, copied from the pending entry. */
  function SessionClaims(p: Payload): AdminClaims
    requires p.AdminLoginPayload?
  {
    AdminClaims(p.userId, p.email, p.customerId, RoleName(p.role))
  }

  function Verify(s: State, req: TotpRequest, env: Env): (r: Outcome)
    requires s.Valid()
    ensures r.state.Valid() && Extends(s, r.state)
    // nothing durable: no refresh token, and no `auth_id` is staged
    ensures r.state.db == s.db
    ensures r.state.cache.Keys <= s.cache.Keys
    ensures !Present(req.tempToken) || !Present(req.totpCode) ==>
      r.response == Failure(400, ALL_FIELDS) && r.state == s
    ensures (Present(req.tempToken) && Present(req.totpCode) && PendingAdminLogin(req.tempToken) !in s.cache) ==>
      r.response == Failure(401, LOGIN_EXPIRED) && r.state == s
    // a wrong code keeps the pending entry
    ensures (Present(req.tempToken) && Present(req.totpCode) && PendingAdminLogin(req.tempToken) in s.cache
             && !env.verifyTotp(s.cache[PendingAdminLogin(req.tempToken)].payload.totpSecret, req.totpCode)) ==>
      r.response == Failure(401, INVALID_TOTP) && r.state == s
    ensures r.response.status == 200 <==>
      && Present(req.tempToken) && Present(req.totpCode) && PendingAdminLogin(req.tempToken) in s.cache
      && env.verifyTotp(s.cache[PendingAdminLogin(req.tempToken)].payload.totpSecret, req.totpCode)
    ensures r.response.status == 200 ==>
      && r.state.cache == s.cache - {PendingAdminLogin(req.tempToken)}
      && r.response == Response(200, AdminLoggedIn,
           [AdminCookie(env.signAdmin(SessionClaims(s.cache[PendingAdminLogin(req.tempToken)].payload), ADMIN_SESSION), env)])
  {
    if !Present(req.tempToken) || !Present(req.totpCode) then Reject(s, 400, ALL_FIELDS)
    else if PendingAdminLogin(req.tempToken) !in s.cache then Reject(s, 401, LOGIN_EXPIRED)
    else
      var p := s.cache[PendingAdminLogin(req.tempToken)].payload;
      if !env.verifyTotp(p.totpSecret, req.totpCode) then Reject(s, 401, INVALID_TOTP)
      else
        Outcome(Response(200, AdminLoggedIn, [AdminCookie(env.signAdmin(SessionClaims(p), ADMIN_SESSION), env)]),
                Consume(s, PendingAdminLogin(req.tempToken)))
  }

  /** A client that echoes the `{}` it was given never reaches the staged entry. */
  lemma {:induction false} EchoedTokenNeverCompletes(s: State, req: AdminLoginRequest, env: Env, code: string)
    requires s.Valid() && PendingAdminLogin(ECHOED_OBJECT) !in s.cache
    ensures var r := Login(s, req, env);
      Verify(r.state, TotpRequest(ECHOED_OBJECT, code), env).response.status != 200
  {
  }

  /** Two admin logins write the same key: the second one's challenge replaces the first's. */
  lemma {:induction false} SecondLoginOverwritesFirst(s: State, req1: AdminLoginRequest, req2: AdminLoginRequest, env: Env)
    requires s.Valid()
    requires Login(s, req1, env).response.status == 200
    requires Login(Login(s, req1, env).state, req2, env).response.status == 200
    ensures var s2 := Login(Login(s, req1, env).state, req2, env).state;
      s2.cache[PendingKey()].payload.userId == UserByEmail(s.db.users, req2.email).value.id
      && s2.cache.Keys == s.cache.Keys + {PendingKey()}
  {
  }

  /**
    Whoever does present the Promise text with a valid code gets a cookie
    that the admin gate accepts, carrying the identity checked at login,
    provided a signed token is never empty and the verifier accepts what
    the signer produced.
  */
  lemma {:induction false} AdminSessionRoundTrip(s: State, req: AdminLoginRequest, env: Env, code: string)
    requires s.Valid()
    requires forall c: AdminClaims, e :: env.verifyAdmin(env.signAdmin(c, e)) == Some(c)
    requires forall c: AdminClaims, e :: Present(env.signAdmin(c, e))
    requires Login(s, req, env).response.status == 200
    requires env.verifyTotp(UserByEmail(s.db.users, req.email).value.totpSecret.value, code) && Present(code)
    ensures var u := UserByEmail(s.db.users, req.email).value;
      var r := Verify(Login(s, req, env).state, TotpRequest(UNSETTLED_PROMISE, code), env);
      && r.response.status == 200
      && AdminAuth.GetAdminFromCookie(map[ADMIN_COOKIE := r.response.cookies[0].value], env.verifyAdmin)
         == Some(AdminClaims(u.id, u.email, req.customerId, "admin"))
  {
    var u := UserByEmail(s.db.users, req.email).value;
    var claims := AdminClaims(u.id, u.email, req.customerId, "admin");
    var r := Verify(Login(s, req, env).state, TotpRequest(UNSETTLED_PROMISE, code), env);
    assert r.response.cookies[0].value == env.signAdmin(claims, ADMIN_SESSION);
  }
}
