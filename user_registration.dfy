/**
  End-user registration in two steps. `RegisterUser` (register-user route)
  checks the tenant, the return URL and the email, then stages a
  `pending_reg` entry and nothing durable. `SetupTotp` (2fa/setup route)
  checks the TOTP code against the staged secret, creates the user with a
  `user` membership in one transaction, consumes the pending entry, stores
  a refresh token and stages a single-use `auth_id`.
*/
module UserRegistration {
  import opened Wrappers
  import opened Capabilities
  import opened Durable
  import opened Ephemeral
  import opened Http
  import opened Stores
  import opened Handoff
  import RedirectGate

  datatype RegisterRequest = RegisterRequest(
    customerId: Id, email: string, password: string, redirectUrl: string)

  const ISSUER := "AuthPlug"
  const CUSTOMER_NOT_FOUND := "Customer account not found"
  const INVALID_REDIRECT := "Invalid redirect URL"
  const EMAIL_TAKEN :=
    "An AuthPlug account already exists for this email. Please log in instead — your account will be linked to this company automatically."
  const SESSION_EXPIRED := "Registration session expired or invalid. Please start again."

  predicate AllFields(req: RegisterRequest) {
    Present(req.customerId) && Present(req.email) && Present(req.password) && Present(req.redirectUrl)
  }

  predicate RedirectAllowed(s: State, req: RegisterRequest, env: Env) {
    RedirectGate.ValidateRedirectUrl(s.db.origins, env.originOf, req.customerId, req.redirectUrl)
  }

  /** What a successful start stages under `pending_reg:<tempToken>`. */
  function Staged(req: RegisterRequest, env: Env, draws: Draws): Entry {
    Entry(RegistrationPayload(req.email, env.hashPassword(req.password), req.customerId,
                              draws.totpSecret, req.redirectUrl), REGISTRATION_TTL)
  }

  function RegisterUser(s: State, req: RegisterRequest, env: Env, draws: Draws): (r: Outcome)
    requires s.Valid()
    ensures r.state.Valid() && Extends(s, r.state)
    // nothing durable is written, on any path
    ensures r.state.db == s.db
    // the checks, in order, each with its own status
    ensures !AllFields(req) ==> r.response == Failure(400, ALL_FIELDS)
    ensures AllFields(req) && req.customerId !in CustomerIds(s.db.customers) ==>
      r.response == Failure(404, CUSTOMER_NOT_FOUND)
    ensures (AllFields(req) && req.customerId in CustomerIds(s.db.customers)
             && !RedirectAllowed(s, req, env)) ==>
      r.response == Failure(403, INVALID_REDIRECT)
    ensures (AllFields(req) && req.customerId in CustomerIds(s.db.customers)
             && RedirectAllowed(s, req, env) && (exists u :: u in s.db.users && u.email == req.email)) ==>
      r.response == Failure(409, EMAIL_TAKEN)
    ensures r.response.status == 200 <==>
      && AllFields(req) && req.customerId in CustomerIds(s.db.customers)
      && RedirectAllowed(s, req, env) && (forall u :: u in s.db.users ==> u.email != req.email)
    ensures r.response.status != 200 ==> r.state == s
    // success stages exactly one entry, whose secret is the one in the QR URI
    ensures r.response.status == 200 ==>
      && r.state.cache == s.cache[PendingReg(draws.tempToken) := Staged(req, env, draws)]
      && r.response == Response(200, RegistrationStarted(draws.tempToken,
                                       OtpAuthUri(ISSUER, req.email, draws.totpSecret)), [])
    ensures r.response.status == 200 ==>
      var staged := r.state.cache[PendingReg(r.response.body.tempToken)].payload;
      r.response.body.qrUri.secret == staged.totpSecret
      && r.response.body.qrUri.accountLabel == staged.email
  {
    if !AllFields(req) then Reject(s, 400, ALL_FIELDS)
    else if CustomerById(s.db.customers, req.customerId).None? then Reject(s, 404, CUSTOMER_NOT_FOUND)
    else if !RedirectAllowed(s, req, env) then Reject(s, 403, INVALID_REDIRECT)
    else if UserByEmail(s.db.users, req.email).Some? then Reject(s, 409, EMAIL_TAKEN)
    else
      var uri := OtpAuthUri(ISSUER, req.email, draws.totpSecret);
      Outcome(Response(200, RegistrationStarted(draws.tempToken, uri), []),
              Stage(s, PendingReg(draws.tempToken), Staged(req, env, draws)))
  }

  /** The user row a completed enrollment creates. */
  function EnrolledUser(p: Payload, draws: Draws): User
    requires p.RegistrationPayload?
  {
    User(draws.userId, p.email, p.hashedPassword, Some(p.totpSecret))
  }

  /** The `$transaction` of 2fa/setup: the user and its `user` membership, both or neither. */
  function EnrollTx(db: Db, p: Payload, draws: Draws, now: int): (r: Option<Db>)
    requires db.Valid() && p.RegistrationPayload?
    ensures r.Some? ==> r.value.Valid() && r.value == db.(
      users := db.users + [EnrolledUser(p, draws)],
      memberships := db.memberships + [Membership(draws.userId, p.customerId, UserRole, now)])
    ensures r.Some? ==> Grows(db, r.value)
    // the transaction commits exactly when the id is fresh, the email free and the tenant exists
    ensures r.Some? <==>
      && draws.userId !in UserIds(db.users)
      && UserByEmail(db.users, p.email).None?
      && p.customerId in CustomerIds(db.customers)
  {
    match InsertUser(db, EnrolledUser(p, draws))
    case None => None
    case Some(db1) =>
      assert draws.userId in UserIds(db1.users);
      assert MembershipOf(db1.memberships, draws.userId, p.customerId).None?;
      InsertMembership(db1, Membership(draws.userId, p.customerId, UserRole, now))
  }

  /** The identity handed to the tenant: the new user, role `user`. */
  function EnrolledSession(p: Payload, draws: Draws): StagedUser
    requires p.RegistrationPayload?
  {
    StagedUser(draws.userId, p.email, p.customerId, UserRole)
  }

  /** The steps after a verified code: transaction, consume, refresh token, exchange code. */
  function Enroll(s: State, key: Key, env: Env, draws: Draws, now: int): (r: Outcome)
    requires s.Valid() && key.PendingReg? && key in s.cache
    ensures r.state.Valid() && Extends(s, r.state) && Mints(s, r.state, HashToken(draws.refreshValue))
    ensures r.state.cache.Keys <= s.cache.Keys + {AuthIdKey(draws.authId)}
    ensures EnrollTx(s.db, s.cache[key].payload, draws, now).None? ==>
      r.state == s && r.response == Failure(500, INTERNAL_ERROR)
    // the refresh-token write is outside the transaction: when it fails, the
    // user exists and the pending entry is gone, yet the answer is 500
    ensures EnrollTx(s.db, s.cache[key].payload, draws, now).Some? && r.response.status != 201 ==>
      && r.response == Failure(500, INTERNAL_ERROR)
      && r.state == State(EnrollTx(s.db, s.cache[key].payload, draws, now).value, s.cache - {key})
    ensures r.response.status == 201 ==>
      var p := s.cache[key].payload;
      && r.state.db == s.db.(
           users := s.db.users + [EnrolledUser(p, draws)],
           memberships := s.db.memberships + [Membership(draws.userId, p.customerId, UserRole, now)],
           refreshTokens := s.db.refreshTokens + [NewRefreshToken(draws, draws.userId, p.customerId, now)])
      && r.state.cache == (s.cache - {key})[AuthIdKey(draws.authId) := ExchangeEntry(draws, EnrolledSession(p, draws))]
      && r.response == Response(201, HandshakeComplete(draws.authId, p.redirectUrl),
                                [RefreshCookie(draws.refreshValue, THIRTY_DAYS_S, env)])
    // 201 exactly when the transaction and the refresh-token insert after it both succeed
    ensures r.response.status == 201 <==>
      var p := s.cache[key].payload;
      && EnrollTx(s.db, p, draws, now).Some?
      && InsertRefreshToken(EnrollTx(s.db, p, draws, now).value,
                            NewRefreshToken(draws, draws.userId, p.customerId, now)).Some?
  {
    var p := s.cache[key].payload;
    match EnrollTx(s.db, p, draws, now)
    case None => Reject(s, 500, INTERNAL_ERROR)
    case Some(db1) =>
      // the pending entry is deleted before the refresh token is stored
      var s1 := Consume(State(db1, s.cache), key);
      var r := IssueSession(s1, EnrolledSession(p, draws), p.redirectUrl, 201, env, draws, now);
      GrowsTransitive(s.db, db1, r.state.db);
      r
  }

  function SetupTotp(s: State, req: TotpRequest, env: Env, draws: Draws, now: int): (r: Outcome)
    requires s.Valid()
    ensures r.state.Valid() && Extends(s, r.state) && Mints(s, r.state, HashToken(draws.refreshValue))
    ensures r.state.cache.Keys <= s.cache.Keys + {AuthIdKey(draws.authId)}
    ensures !Present(req.tempToken) || !Present(req.totpCode) ==>
      r.response == Failure(400, ALL_FIELDS) && r.state == s
    ensures (Present(req.tempToken) && Present(req.totpCode) && PendingReg(req.tempToken) !in s.cache) ==>
      r.response == Failure(401, SESSION_EXPIRED) && r.state == s
    // a wrong code keeps the pending entry and creates nothing
    ensures (Present(req.tempToken) && Present(req.totpCode) && PendingReg(req.tempToken) in s.cache
             && !env.verifyTotp(s.cache[PendingReg(req.tempToken)].payload.totpSecret, req.totpCode)) ==>
      r.response == Failure(401, INVALID_TOTP) && r.state == s
    // the transaction is all-or-nothing: when it fails (the email was taken meanwhile), nothing changes
    ensures (Present(req.tempToken) && Present(req.totpCode) && PendingReg(req.tempToken) in s.cache
             && env.verifyTotp(s.cache[PendingReg(req.tempToken)].payload.totpSecret, req.totpCode)
             && EnrollTx(s.db, s.cache[PendingReg(req.tempToken)].payload, draws, now).None?) ==>
      r.response == Failure(500, INTERNAL_ERROR) && r.state == s
    ensures r.response.status == 201 ==>
      && Present(req.tempToken) && Present(req.totpCode) && PendingReg(req.tempToken) in s.cache
      && env.verifyTotp(s.cache[PendingReg(req.tempToken)].payload.totpSecret, req.totpCode)
    // a valid code for a pending registration always enrolls
    ensures (Present(req.tempToken) && Present(req.totpCode) && PendingReg(req.tempToken) in s.cache
             && env.verifyTotp(s.cache[PendingReg(req.tempToken)].payload.totpSecret, req.totpCode)) ==>
      r == Enroll(s, PendingReg(req.tempToken), env, draws, now)
  {
    if !Present(req.tempToken) || !Present(req.totpCode) then Reject(s, 400, ALL_FIELDS)
    else if PendingReg(req.tempToken) !in s.cache then Reject(s, 401, SESSION_EXPIRED)
    else if !env.verifyTotp(s.cache[PendingReg(req.tempToken)].payload.totpSecret, req.totpCode) then
      Reject(s, 401, INVALID_TOTP)
    else
      Enroll(s, PendingReg(req.tempToken), env, draws, now)
  }
}
