/**
  End-user login in two steps. `Login` (login route) checks the tenant and
  the credentials, links the user to the tenant with role `user` when no
  membership exists yet, and stages a `pending_login` entry. `VerifyLogin`
  (2fa/verify route) checks the TOTP code, consumes the entry and hands a
  session over exactly as enrollment does. The allow-list is not consulted
  at any point of this flow.
*/
module UserLogin {
  import opened Wrappers
  import opened Capabilities
  import opened Durable
  import opened Ephemeral
  import opened Http
  import opened Stores
  import opened Handoff

  datatype LoginRequest = LoginRequest(
    customerId: Id, email: string, password: string, redirectUrl: string)

  const CUSTOMER_NOT_FOUND := "Customer account not found"
  const LOGIN_EXPIRED := "Login session expired or invalid. Please log in again."

  predicate AllFields(req: LoginRequest) {
    Present(req.customerId) && Present(req.email) && Present(req.password) && Present(req.redirectUrl)
  }

  /** `existingUser.totpSecret` is truthy: set, and not the empty string. */
  predicate HasTotp(u: User) {
    u.totpSecret.Some? && Present(u.totpSecret.value)
  }

  /** Email and password both check out (the two failures are indistinguishable). */
  predicate Authenticated(db: Db, req: LoginRequest, env: Env) {
    UserByEmail(db.users, req.email).Some?
    && env.checkPassword(UserByEmail(db.users, req.email).value.password, req.password)
  }

  /**
    The membership the session runs under: the existing one, or a new
    `user` membership created on the spot ("one identity, many tenants").
    Returns the store afterwards and the role to stage.
  */
  function Link(db: Db, u: User, customerId: Id, now: int): (r: (Db, Role))
    requires db.Valid() && u in db.users && customerId in CustomerIds(db.customers)
    ensures r.0.Valid() && Grows(db, r.0)
    ensures r.0 == db.(memberships := r.0.memberships)
    // afterwards the pair is linked, under exactly the role returned
    ensures MembershipOf(r.0.memberships, u.id, customerId).Some?
    ensures MembershipOf(r.0.memberships, u.id, customerId).value.role == r.1
    // an existing membership is reused unchanged; otherwise one `user` row is appended
    ensures MembershipOf(db.memberships, u.id, customerId).Some? ==>
      r == (db, MembershipOf(db.memberships, u.id, customerId).value.role)
    ensures MembershipOf(db.memberships, u.id, customerId).None? ==>
      r == (db.(memberships := db.memberships + [Membership(u.id, customerId, UserRole, now)]), UserRole)
  {
    match MembershipOf(db.memberships, u.id, customerId)
    case Some(m) =>
      MembershipOfFinds(db, m);
      (db, m.role)
    case None =>
      assert u.id in UserIds(db.users);
      var m := Membership(u.id, customerId, UserRole, now);
      var db1 := InsertMembership(db, m).value;
      MembershipOfFinds(db1, m);
      (db1, UserRole)
  }

  /** What a successful start stages under `pending_login:<tempToken>`. */
  function Challenge(u: User, req: LoginRequest, role: Role): Entry
    requires u.totpSecret.Some?
  {
    Entry(LoginPayload(u.id, u.email, req.customerId, role, u.totpSecret.value, req.redirectUrl), LOGIN_TTL)
  }

  function Login(s: State, req: LoginRequest, env: Env, draws: Draws, now: int): (r: Outcome)
    requires s.Valid()
    ensures r.state.Valid() && Extends(s, r.state)
    // at most a membership is added, and at most one `pending_login` entry is staged
    ensures r.state.db == s.db.(memberships := r.state.db.memberships)
    ensures r.state.cache.Keys <= s.cache.Keys + {PendingLogin(draws.tempToken)}
    ensures !AllFields(req) ==> r.response == Failure(400, ALL_FIELDS)
    ensures AllFields(req) && req.customerId !in CustomerIds(s.db.customers) ==>
      r.response == Failure(404, CUSTOMER_NOT_FOUND)
    // unknown email and wrong password are answered identically
    ensures (AllFields(req) && req.customerId in CustomerIds(s.db.customers)
             && !Authenticated(s.db, req, env)) ==>
      r.response == Failure(401, INVALID_CREDENTIALS)
    ensures (AllFields(req) && req.customerId in CustomerIds(s.db.customers)
             && Authenticated(s.db, req, env) && !HasTotp(UserByEmail(s.db.users, req.email).value)) ==>
      r.response == Failure(403, NO_TOTP)
    ensures r.response.status == 200 <==>
      && AllFields(req) && req.customerId in CustomerIds(s.db.customers)
      && Authenticated(s.db, req, env) && HasTotp(UserByEmail(s.db.users, req.email).value)
    // every refusal, the 403 included, links nothing and stages nothing
    ensures r.response.status != 200 ==> r.state == s
    ensures r.response.status == 200 ==>
      var u := UserByEmail(s.db.users, req.email).value;
      var (db1, role) := Link(s.db, u, req.customerId, now);
      && r.state == State(db1, s.cache[PendingLogin(draws.tempToken) := Challenge(u, req, role)])
      && r.response == Response(200, ChallengeIssued(draws.tempToken), [])
  {
    if !AllFields(req) then Reject(s, 400, ALL_FIELDS)
    else if CustomerById(s.db.customers, req.customerId).None? then Reject(s, 404, CUSTOMER_NOT_FOUND)
    else if UserByEmail(s.db.users, req.email).None? then Reject(s, 401, INVALID_CREDENTIALS)
    else
      var u := UserByEmail(s.db.users, req.email).value;
      if !env.checkPassword(u.password, req.password) then Reject(s, 401, INVALID_CREDENTIALS)
      else if !HasTotp(u) then Reject(s, 403, NO_TOTP)
      else
        var (db1, role) := Link(s.db, u, req.customerId, now);
        Outcome(Response(200, ChallengeIssued(draws.tempToken), []),
                Stage(State(db1, s.cache), PendingLogin(draws.tempToken), Challenge(u, req, role)))
  }

  /** The redirect URL is staged verbatim: neither the allow-list nor URL parsing is consulted. */
  lemma {:induction false} LoginIgnoresAllowList(s: State, req: LoginRequest, env: Env, draws: Draws, now: int,
                                                 origins: seq<AllowedOrigin>, originOf: string -> Option<string>)
    requires s.Valid() && s.(db := s.db.(origins := origins)).Valid()
    ensures var r := Login(s, req, env, draws, now);
      var r' := Login(s.(db := s.db.(origins := origins)), req, env.(originOf := originOf), draws, now);
      r'.response == r.response && r'.state.cache == r.state.cache
  {
    var s' := s.(db := s.db.(origins := origins));
    if AllFields(req) && req.customerId in CustomerIds(s.db.customers) && Authenticated(s.db, req, env)
       && HasTotp(UserByEmail(s.db.users, req.email).value) {
      var u := UserByEmail(s.db.users, req.email).value;
      assert Link(s'.db, u, req.customerId, now).1 == Link(s.db, u, req.customerId, now).1 by {
        if MembershipOf(s.db.memberships, u.id, req.customerId).None? {
          assert s'.db.memberships == s.db.memberships;
        }
      }
    }
  }

  function VerifyLogin(s: State, req: TotpRequest, env: Env, draws: Draws, now: int): (r: Outcome)
    requires s.Valid()
    ensures r.state.Valid() && Extends(s, r.state) && Mints(s, r.state, HashToken(draws.refreshValue))
    // users, memberships, customers and origins are never touched
    ensures r.state.db == s.db.(refreshTokens := r.state.db.refreshTokens)
    ensures r.state.cache.Keys <= s.cache.Keys + {AuthIdKey(draws.authId)}
    ensures !Present(req.tempToken) || !Present(req.totpCode) ==>
      r.response == Failure(400, ALL_FIELDS) && r.state == s
    ensures (Present(req.tempToken) && Present(req.totpCode) && PendingLogin(req.tempToken) !in s.cache) ==>
      r.response == Failure(401, LOGIN_EXPIRED) && r.state == s
    // a wrong code keeps the pending entry
    ensures (Present(req.tempToken) && Present(req.totpCode) && PendingLogin(req.tempToken) in s.cache
             && !env.verifyTotp(s.cache[PendingLogin(req.tempToken)].payload.totpSecret, req.totpCode)) ==>
      r.response == Failure(401, INVALID_TOTP) && r.state == s
    // past a valid code the entry is gone, whether or not the refresh token could be stored
    ensures (Present(req.tempToken) && Present(req.totpCode) && PendingLogin(req.tempToken) in s.cache
             && env.verifyTotp(s.cache[PendingLogin(req.tempToken)].payload.totpSecret, req.totpCode)) ==>
      var p := s.cache[PendingLogin(req.tempToken)].payload;
      r == IssueSession(Consume(s, PendingLogin(req.tempToken)),
                        StagedUser(p.userId, p.email, p.customerId, p.role), p.redirectUrl, 200,
                        env, draws, now)
    ensures r.response.status == 200 ==>
      && PendingLogin(req.tempToken) in s.cache && PendingLogin(req.tempToken) !in r.state.cache
      && |r.state.db.refreshTokens| == |s.db.refreshTokens| + 1
  {
    if !Present(req.tempToken) || !Present(req.totpCode) then Reject(s, 400, ALL_FIELDS)
    else if PendingLogin(req.tempToken) !in s.cache then Reject(s, 401, LOGIN_EXPIRED)
    else
      var p := s.cache[PendingLogin(req.tempToken)].payload;
      if !env.verifyTotp(p.totpSecret, req.totpCode) then Reject(s, 401, INVALID_TOTP)
      else
        IssueSession(Consume(s, PendingLogin(req.tempToken)),
                     StagedUser(p.userId, p.email, p.customerId, p.role), p.redirectUrl, 200,
                     env, draws, now)
  }

  /** A completed login cannot be completed again with the same tempToken. */
  lemma {:induction false} VerifyLoginSingleUse(s: State, req: TotpRequest, env: Env, draws: Draws, now: int,
                                                draws': Draws, now': int)
    requires s.Valid()
    requires VerifyLogin(s, req, env, draws, now).response.status == 200
    ensures VerifyLogin(VerifyLogin(s, req, env, draws, now).state, req, env, draws', now').response
            == Failure(401, LOGIN_EXPIRED)
  {
  }
}
