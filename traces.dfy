/**
  Runs of the broker: any sequence of route calls and TTL lapses, each step
  applying its route's specification to the stores. What every step keeps
  (valid stores, nothing undone) is carried over whole runs, and with it the
  facts that hold whatever clients do: roles and identities never change, a
  revoked or logged-out refresh value never comes back to life unless the
  generator draws it again, and an ephemeral key no route writes never
  appears, which is why the `{}` echoed by admin clients never completes an
  admin login.
*/
module Traces {
  import opened Wrappers
  import opened Capabilities
  import opened Durable
  import opened Ephemeral
  import opened Http
  import opened Stores
  import UR = UserRegistration
  import UL = UserLogin
  import AL = AdminLogin
  import CodeExchange
  import RT = RefreshTokens
  import RU = RedirectUrls
  import CR = CompanyRegistration
  import AA = AdminAccount

  /** One step: a call of a state-changing route, with its request, draws and clock, or a TTL lapse. */
  datatype Op =
    | RegisterUserOp(registration: UR.RegisterRequest, draws: Draws)
    | SetupTotpOp(totp: TotpRequest, draws: Draws, now: int)
    | LoginOp(login: UL.LoginRequest, draws: Draws, now: int)
    | VerifyLoginOp(totp: TotpRequest, draws: Draws, now: int)
    | AdminLoginOp(adminLogin: AL.AdminLoginRequest)
    | AdminVerifyOp(totp: TotpRequest)
    | RedeemOp(exchange: CodeExchange.ExchangeRequest)
    | RotateOp(jar: CookieJar, draws: Draws, now: int)
    | LogoutOp(jar: CookieJar)
    | AddOriginOp(jar: CookieJar, url: string, draws: Draws, now: int)
    | RemoveOriginOp(jar: CookieJar, id: Id)
    | ChangePasswordOp(jar: CookieJar, change: AA.PasswordChange)
    | CompanySetupOp(totp: TotpRequest, draws: Draws, now: int)
    | RegisterCustomerOp(customer: CR.CustomerRequest, draws: Draws, now: int)
    | ExpireOp(key: Key)

  /** The ephemeral keys a step may add. */
  function StagedKeys(op: Op): set<Key> {
    match op
    case RegisterUserOp(_, draws) => {PendingReg(draws.tempToken)}
    case SetupTotpOp(_, draws, _) => {AuthIdKey(draws.authId)}
    case LoginOp(_, draws, _) => {PendingLogin(draws.tempToken)}
    case VerifyLoginOp(_, draws, _) => {AuthIdKey(draws.authId)}
    case AdminLoginOp(_) => {AL.PendingKey()}
    case _ => {}
  }

  /** The refresh value a step may draw and store (by digest). */
  function Minted(op: Op): Option<string> {
    match op
    case SetupTotpOp(_, draws, _) => Some(draws.refreshValue)
    case VerifyLoginOp(_, draws, _) => Some(draws.refreshValue)
    case RotateOp(_, draws, _) => Some(draws.refreshValue)
    case _ => None
  }

  function Apply(env: Env, s: State, op: Op): (r: Outcome)
    requires s.Valid()
    ensures r.state.Valid() && Extends(s, r.state)
    ensures r.state.cache.Keys <= s.cache.Keys + StagedKeys(op)
    ensures Minted(op).None? ==> |r.state.db.refreshTokens| == |s.db.refreshTokens|
    ensures Minted(op).Some? ==> Mints(s, r.state, HashToken(Minted(op).value))
  {
    if op.RegisterUserOp? || op.SetupTotpOp? || op.LoginOp? || op.VerifyLoginOp? then ApplyEndUser(env, s, op)
    else if op.RotateOp? || op.LogoutOp? || op.RedeemOp? || op.ExpireOp? then ApplySession(env, s, op)
    else if op.AdminLoginOp? || op.AdminVerifyOp? || op.ChangePasswordOp? then ApplyAdmin(env, s, op)
    else ApplyTenant(env, s, op)
  }

  /** The end-user handshake: registration and login, both steps each. */
  function ApplyEndUser(env: Env, s: State, op: Op): (r: Outcome)
    requires op.RegisterUserOp? || op.SetupTotpOp? || op.LoginOp? || op.VerifyLoginOp?
    requires s.Valid()
    ensures r.state.Valid() && Extends(s, r.state)
    ensures r.state.cache.Keys <= s.cache.Keys + StagedKeys(op)
    ensures Minted(op).None? ==> |r.state.db.refreshTokens| == |s.db.refreshTokens|
    ensures Minted(op).Some? ==> Mints(s, r.state, HashToken(Minted(op).value))
  {
    match op
    case RegisterUserOp(req, draws) => UR.RegisterUser(s, req, env, draws)
    case SetupTotpOp(req, draws, now) => UR.SetupTotp(s, req, env, draws, now)
    case LoginOp(req, draws, now) => UL.Login(s, req, env, draws, now)
    case VerifyLoginOp(req, draws, now) => UL.VerifyLogin(s, req, env, draws, now)
  }

  /** The session after the hand-off: the exchange, rotation, logout, and TTL lapses. */
  function ApplySession(env: Env, s: State, op: Op): (r: Outcome)
    requires op.RotateOp? || op.LogoutOp? || op.RedeemOp? || op.ExpireOp?
    requires s.Valid()
    ensures r.state.Valid() && Extends(s, r.state)
    ensures r.state.cache.Keys <= s.cache.Keys + StagedKeys(op)
    ensures Minted(op).None? ==> |r.state.db.refreshTokens| == |s.db.refreshTokens|
    ensures Minted(op).Some? ==> Mints(s, r.state, HashToken(Minted(op).value))
  {
    match op
    case RedeemOp(req) => CodeExchange.Redeem(s, req, env)
    case RotateOp(jar, draws, now) =>
      var r := RotateStep(env, s, jar, draws, now);
      assert Minted(op) == Some(draws.refreshValue);
      assert r.state.cache.Keys == s.cache.Keys;
      r
    case LogoutOp(jar) => RT.Logout(s, jar, env)
    // Redis expiry answers no request: the response is a placeholder that no lemma reads
    case ExpireOp(k) => Outcome(Response(200, LoggedOut, []), Consume(s, k))
  }

  function RotateStep(env: Env, s: State, jar: CookieJar, draws: Draws, now: int): (r: Outcome)
    requires s.Valid()
    ensures r.state.Valid() && Extends(s, r.state) && r.state.cache == s.cache
    ensures Mints(s, r.state, HashToken(draws.refreshValue))
  {
    RT.Rotate(s, jar, env, draws, now)
  }

  /** Admin sign-in and the admin's own account. */
  function ApplyAdmin(env: Env, s: State, op: Op): (r: Outcome)
    requires op.AdminLoginOp? || op.AdminVerifyOp? || op.ChangePasswordOp?
    requires s.Valid()
    ensures r.state.Valid() && Extends(s, r.state)
    ensures r.state.cache.Keys <= s.cache.Keys + StagedKeys(op)
    ensures r.state.db.refreshTokens == s.db.refreshTokens
  {
    match op
    case AdminLoginOp(req) =>
      var r := AL.Login(s, req, env);
      assert StagedKeys(op) == {AL.PendingKey()} && r.state.db == s.db;
      r
    case AdminVerifyOp(req) =>
      var r := AL.Verify(s, req, env);
      assert r.state.db == s.db;
      r
    case ChangePasswordOp(jar, change) =>
      var r := AA.ChangePassword(s, jar, change, env);
      assert r.state.cache == s.cache && r.state.db.refreshTokens == s.db.refreshTokens;
      r
  }

  /** Founding tenants and managing their allowed origins. */
  function ApplyTenant(env: Env, s: State, op: Op): (r: Outcome)
    requires op.AddOriginOp? || op.RemoveOriginOp? || op.CompanySetupOp? || op.RegisterCustomerOp?
    requires s.Valid()
    ensures r.state.Valid() && Extends(s, r.state)
    ensures r.state.cache.Keys <= s.cache.Keys
    ensures r.state.db.refreshTokens == s.db.refreshTokens
  {
    match op
    case AddOriginOp(jar, url, draws, now) => RU.Add(s, jar, url, env, draws, now)
    case RemoveOriginOp(jar, id) => RU.Remove(s, jar, id, env)
    case CompanySetupOp(req, draws, now) => CR.CompanySetup(s, req, env, draws, now)
    case RegisterCustomerOp(req, draws, now) => CR.RegisterCustomer(s, req, env, draws, now)
  }

  /** The stores after running `ops` from `s`. */
  function Run(env: Env, s: State, ops: seq<Op>): (r: State)
    requires s.Valid()
    ensures r.Valid() && Extends(s, r)
    decreases |ops|
  {
    if ops == [] then s
    else
      var s1 := Apply(env, s, ops[0]).state;
      var r := Run(env, s1, ops[1..]);
      GrowsTransitive(s.db, s1.db, r.db);
      r
  }

  /** A key that no step of the run writes is absent at the end if it was absent at the start. */
  lemma {:induction false} KeyNeverStaged(env: Env, s: State, ops: seq<Op>, k: Key)
    requires s.Valid() && k !in s.cache
    requires forall i :: 0 <= i < |ops| ==> k !in StagedKeys(ops[i])
    ensures k !in Run(env, s, ops).cache
    decreases |ops|
  {
    if ops != [] {
      KeyNeverStaged(env, Apply(env, s, ops[0]).state, ops[1..], k);
    }
  }

  /**
    Admin login completes only for whoever presents the text of the
    unsettled Promise: a client echoing the `{}` it received is told its
    session expired, however the run went.
  */
  lemma {:induction false} EchoedAdminTokenNeverWorks(env: Env, s: State, ops: seq<Op>, code: string)
    requires s.Valid() && PendingAdminLogin(AL.ECHOED_OBJECT) !in s.cache
    ensures Present(code) ==>
      AL.Verify(Run(env, s, ops), TotpRequest(AL.ECHOED_OBJECT, code), env).response == Failure(401, AL.LOGIN_EXPIRED)
  {
    KeyNeverStaged(env, s, ops, PendingAdminLogin(AL.ECHOED_OBJECT));
  }

  /**
    No modelled route writes `pending_company_reg`: starting without such
    entries, company setup can only answer that the session expired.
  */
  lemma {:induction false} CompanySetupNeedsOutsideWriter(env: Env, s: State, ops: seq<Op>,
                                                          req: TotpRequest, draws: Draws, now: int)
    requires s.Valid() && PendingCompanyReg(req.tempToken) !in s.cache
    requires Present(req.tempToken) && Present(req.totpCode)
    ensures CR.CompanySetup(Run(env, s, ops), req, env, draws, now).response == Failure(401, CR.SESSION_EXPIRED)
  {
    KeyNeverStaged(env, s, ops, PendingCompanyReg(req.tempToken));
  }

  /** No live refresh-token row carries the digest `h`. */
  ghost predicate Dead(s: State, h: TokenHash) {
    forall t :: t in s.db.refreshTokens ==> !(t.token == h && !t.revoked)
  }

  lemma {:induction false} StepKeepsDead(env: Env, s: State, op: Op, v: string)
    requires s.Valid() && Dead(s, HashToken(v)) && Minted(op) != Some(v)
    ensures Dead(Apply(env, s, op).state, HashToken(v))
  {
    var s1 := Apply(env, s, op).state;
    forall t | t in s1.db.refreshTokens
      ensures !(t.token == HashToken(v) && !t.revoked)
    {
      var i :| 0 <= i < |s1.db.refreshTokens| && s1.db.refreshTokens[i] == t;
      if i < |s.db.refreshTokens| {
        assert Evolved(s.db.refreshTokens[i], t);
        assert s.db.refreshTokens[i] in s.db.refreshTokens;
      } else {
        assert t.token == HashToken(Minted(op).value);
      }
    }
  }

  /**
    A refresh value that is dead (revoked, logged out, or never issued)
    stays dead for the rest of the run unless the generator draws exactly
    that value again.
  */
  lemma {:induction false} DeadValueStaysDead(env: Env, s: State, ops: seq<Op>, v: string)
    requires s.Valid() && Dead(s, HashToken(v))
    requires forall i :: 0 <= i < |ops| ==> Minted(ops[i]) != Some(v)
    ensures Dead(Run(env, s, ops), HashToken(v))
    ensures Present(v) ==>
      RT.Rotate(Run(env, s, ops), map[REFRESH_COOKIE := v], env, Draws("", "", "", "", "", "", ""), 0).response
      == Failure(401, RT.REVOKED)
    decreases |ops|
  {
    if ops != [] {
      StepKeepsDead(env, s, ops[0], v);
      DeadValueStaysDead(env, Apply(env, s, ops[0]).state, ops[1..], v);
    }
  }

  /** A membership, once created, is found with the same role after any run. */
  lemma {:induction false} RoleNeverChanges(env: Env, s: State, ops: seq<Op>, m: Membership)
    requires s.Valid() && m in s.db.memberships
    ensures MembershipOf(Run(env, s, ops).db.memberships, m.userId, m.customerId) == Some(m)
  {
    var r := Run(env, s, ops);
    var i :| 0 <= i < |s.db.memberships| && s.db.memberships[i] == m;
    assert r.db.memberships[i] == m;
    MembershipOfFinds(r.db, m);
  }

  /** A user keeps its email and TOTP secret through any run; only the password hash may change. */
  lemma {:induction false} IdentityNeverChanges(env: Env, s: State, ops: seq<Op>, u: User)
    requires s.Valid() && u in s.db.users
    ensures var r := Run(env, s, ops);
      UserById(r.db.users, u.id).Some? && SameIdentity(u, UserById(r.db.users, u.id).value)
  {
    var r := Run(env, s, ops);
    var i :| 0 <= i < |s.db.users| && s.db.users[i] == u;
    assert SameIdentity(u, r.db.users[i]);
    UserByIdFinds(r.db, r.db.users[i]);
  }
}
