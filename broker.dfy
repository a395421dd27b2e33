/**
  The broker as the routes run it: one object holding the durable store and
  the ephemeral store, with one method per state-changing route. Each
  method is the route's chain of guarded early returns followed by its
  writes, in the route's order, and is proved to produce exactly the
  response and the stores that the route's specification function
  describes; what those functions promise therefore holds of the methods.
*/
module Broker {
  import opened Wrappers
  import opened Capabilities
  import opened Durable
  import opened Ephemeral
  import opened Http
  import opened Stores
  import Handoff
  import UR = UserRegistration
  import UL = UserLogin
  import AL = AdminLogin
  import CodeExchange
  import RT = RefreshTokens
  import RU = RedirectUrls
  import CR = CompanyRegistration
  import AA = AdminAccount

  class AuthBroker {
    var db: Db
    var cache: Cache

    ghost predicate Valid()
      reads this
    {
      Snapshot().Valid()
    }

    function Snapshot(): State
      reads this
    {
      State(db, cache)
    }

    /** A broker over an existing database, with an empty ephemeral store. */
    constructor (initial: Db)
      requires initial.Valid()
      ensures Valid() && Snapshot() == State(initial, map[])
    {
      db := initial;
      cache := map[];
    }

    /** The end of a TTL: the ephemeral store drops the entry by itself. */
    method Expire(k: Key)
      requires Valid()
      modifies this
      ensures Valid() && Snapshot() == Consume(old(Snapshot()), k)
    {
      cache := cache - {k};
    }

    // ----- end-user registration -----

    method RegisterUser(req: UR.RegisterRequest, env: Env, draws: Draws) returns (res: Response)
      requires Valid()
      modifies this
      ensures Valid() && Outcome(res, Snapshot()) == UR.RegisterUser(old(Snapshot()), req, env, draws)
    {
      if !UR.AllFields(req) {
        return Failure(400, ALL_FIELDS);
      }
      if CustomerById(db.customers, req.customerId).None? {
        return Failure(404, UR.CUSTOMER_NOT_FOUND);
      }
      if !UR.RedirectAllowed(Snapshot(), req, env) {
        return Failure(403, UR.INVALID_REDIRECT);
      }
      if UserByEmail(db.users, req.email).Some? {
        return Failure(409, UR.EMAIL_TAKEN);
      }
      cache := cache[PendingReg(draws.tempToken) := UR.Staged(req, env, draws)];
      res := Response(200, RegistrationStarted(draws.tempToken,
                                               OtpAuthUri(UR.ISSUER, req.email, draws.totpSecret)), []);
    }

    /** The hand-off after a verified code; the pending entry is already consumed. */
    method IssueSession(user: StagedUser, redirectUrl: string, status: int, env: Env, draws: Draws, now: int)
      returns (res: Response)
      requires Valid() && status != 500
      modifies this
      ensures Valid()
      ensures Outcome(res, Snapshot()) == Handoff.IssueSession(old(Snapshot()), user, redirectUrl, status, env, draws, now)
    {
      var created := InsertRefreshToken(db, Handoff.NewRefreshToken(draws, user.id, user.customerId, now));
      if created.None? {
        return Failure(500, INTERNAL_ERROR);
      }
      db := created.value;
      cache := cache[AuthIdKey(draws.authId) := Handoff.ExchangeEntry(draws, user)];
      res := Response(status, HandshakeComplete(draws.authId, redirectUrl),
                      [RefreshCookie(draws.refreshValue, THIRTY_DAYS_S, env)]);
    }

    method SetupTotp(req: TotpRequest, env: Env, draws: Draws, now: int) returns (res: Response)
      requires Valid()
      modifies this
      ensures Valid() && Outcome(res, Snapshot()) == UR.SetupTotp(old(Snapshot()), req, env, draws, now)
    {
      if !Present(req.tempToken) || !Present(req.totpCode) {
        return Failure(400, ALL_FIELDS);
      }
      var key := PendingReg(req.tempToken);
      if key !in cache {
        return Failure(401, UR.SESSION_EXPIRED);
      }
      var p := cache[key].payload;
      if !env.verifyTotp(p.totpSecret, req.totpCode) {
        return Failure(401, INVALID_TOTP);
      }
      var tx := UR.EnrollTx(db, p, draws, now);
      if tx.None? {
        return Failure(500, INTERNAL_ERROR);
      }
      db := tx.value;
      cache := cache - {key};
      res := IssueSession(UR.EnrolledSession(p, draws), p.redirectUrl, 201, env, draws, now);
    }

    // ----- end-user login -----

    method Login(req: UL.LoginRequest, env: Env, draws: Draws, now: int) returns (res: Response)
      requires Valid()
      modifies this
      ensures Valid() && Outcome(res, Snapshot()) == UL.Login(old(Snapshot()), req, env, draws, now)
    {
      if !UL.AllFields(req) {
        return Failure(400, ALL_FIELDS);
      }
      if CustomerById(db.customers, req.customerId).None? {
        return Failure(404, UL.CUSTOMER_NOT_FOUND);
      }
      var found := UserByEmail(db.users, req.email);
      if found.None? {
        return Failure(401, INVALID_CREDENTIALS);
      }
      var u := found.value;
      if !env.checkPassword(u.password, req.password) {
        return Failure(401, INVALID_CREDENTIALS);
      }
      if !UL.HasTotp(u) {
        return Failure(403, NO_TOTP);
      }
      ghost var s0 := Snapshot();
      var linked := UL.Link(db, u, req.customerId, now);
      db := linked.0;
      cache := cache[PendingLogin(draws.tempToken) := UL.Challenge(u, req, linked.1)];
      res := Response(200, ChallengeIssued(draws.tempToken), []);
      assert Snapshot() == Stage(State(linked.0, s0.cache), PendingLogin(draws.tempToken), UL.Challenge(u, req, linked.1));
    }

    method VerifyLogin(req: TotpRequest, env: Env, draws: Draws, now: int) returns (res: Response)
      requires Valid()
      modifies this
      ensures Valid() && Outcome(res, Snapshot()) == UL.VerifyLogin(old(Snapshot()), req, env, draws, now)
    {
      if !Present(req.tempToken) || !Present(req.totpCode) {
        return Failure(400, ALL_FIELDS);
      }
      var key := PendingLogin(req.tempToken);
      if key !in cache {
        return Failure(401, UL.LOGIN_EXPIRED);
      }
      var p := cache[key].payload;
      if !env.verifyTotp(p.totpSecret, req.totpCode) {
        return Failure(401, INVALID_TOTP);
      }
      cache := cache - {key};
      res := IssueSession(StagedUser(p.userId, p.email, p.customerId, p.role), p.redirectUrl, 200, env, draws, now);
    }

    // ----- admin login -----

    method AdminLogin(req: AL.AdminLoginRequest, env: Env) returns (res: Response)
      requires Valid()
      modifies this
      ensures Valid() && Outcome(res, Snapshot()) == AL.Login(old(Snapshot()), req, env)
    {
      if !AL.AllFields(req) {
        return Failure(400, ALL_FIELDS);
      }
      var found := UserByEmail(db.users, req.email);
      if found.None? {
        return Failure(401, INVALID_CREDENTIALS);
      }
      var u := found.value;
      if !AL.IsAdminOf(db, u, req.customerId) {
        return Failure(401, INVALID_CREDENTIALS);
      }
      if !env.checkPassword(u.password, req.password) {
        return Failure(401, INVALID_CREDENTIALS);
      }
      if !AL.HasTotp(u) {
        return Failure(403, NO_TOTP);
      }
      cache := cache[AL.PendingKey() := AL.AdminChallenge(u, req.customerId)];
      res := Response(200, AdminChallengeIssued, []);
    }

    method AdminVerify(req: TotpRequest, env: Env) returns (res: Response)
      requires Valid()
      modifies this
      ensures Valid() && Outcome(res, Snapshot()) == AL.Verify(old(Snapshot()), req, env)
    {
      if !Present(req.tempToken) || !Present(req.totpCode) {
        return Failure(400, ALL_FIELDS);
      }
      var key := PendingAdminLogin(req.tempToken);
      if key !in cache {
        return Failure(401, AL.LOGIN_EXPIRED);
      }
      var p := cache[key].payload;
      if !env.verifyTotp(p.totpSecret, req.totpCode) {
        return Failure(401, INVALID_TOTP);
      }
      cache := cache - {key};
      var token := env.signAdmin(AL.SessionClaims(p), AL.ADMIN_SESSION);
      res := Response(200, AdminLoggedIn, [AL.AdminCookie(token, env)]);
    }

    // ----- the tenant back end -----

    method RedeemAuthId(req: CodeExchange.ExchangeRequest, env: Env) returns (res: Response)
      requires Valid()
      modifies this
      ensures Valid() && Outcome(res, Snapshot()) == CodeExchange.Redeem(old(Snapshot()), req, env)
    {
      if !Present(req.customerId) || !Present(req.authId) {
        return Failure(400, ALL_FIELDS);
      }
      var key := AuthIdKey(req.authId);
      if key !in cache {
        return Failure(401, CodeExchange.INVALID_AUTH_ID);
      }
      var claims := CodeExchange.ClaimsOf(cache[key].payload.user);
      var token := env.signAccess(claims, CodeExchange.ACCESS_TTL);
      cache := cache - {key};
      res := Response(200, TokenIssued(token, claims), []);
    }

    method Rotate(jar: CookieJar, env: Env, draws: Draws, now: int) returns (res: Response)
      requires Valid()
      modifies this
      ensures Valid() && Outcome(res, Snapshot()) == RT.Rotate(old(Snapshot()), jar, env, draws, now)
    {
      var value := CookieValue(jar, REFRESH_COOKIE);
      if !Present(value) {
        return Failure(401, RT.NO_TOKEN);
      }
      var stored := RT.Presented(db, jar);
      if stored.None? {
        return Failure(401, RT.REVOKED);
      }
      var t := stored.value;
      if t.expiresAt < now {
        return Failure(401, RT.EXPIRED);
      }
      var link := MembershipOf(db.memberships, t.userId, t.customerId);
      if link.None? {
        return Failure(403, RT.UNLINKED);
      }
      res := CommitRotation(t, link.value, env, draws, now);
    }

    /** The rotation proper, once the presented row is live, unexpired and linked. */
    method CommitRotation(t: RefreshToken, m: Membership, env: Env, draws: Draws, now: int) returns (res: Response)
      requires Valid() && t in db.refreshTokens
      modifies this
      ensures Valid() && Outcome(res, Snapshot()) == RT.Reissue(old(Snapshot()), t, m, env, draws, now)
    {
      var tx := RT.RotateTx(db, t, draws, now);
      if tx.None? {
        return Failure(500, INTERNAL_ERROR);
      }
      var claims := RT.Claims(db, t, m);
      ghost var s0 := Snapshot();
      db := tx.value;
      res := Response(200, RT.Refreshed(claims, env), [RefreshCookie(draws.refreshValue, THIRTY_DAYS_S, env)]);
      assert Outcome(res, Snapshot()) == Outcome(res, Commit(s0, tx.value));
    }

    method Logout(jar: CookieJar, env: Env) returns (res: Response)
      requires Valid()
      modifies this
      ensures Valid() && Outcome(res, Snapshot()) == RT.Logout(old(Snapshot()), jar, env)
    {
      var value := CookieValue(jar, REFRESH_COOKIE);
      if Present(value) {
        db := RevokeLive(db, HashToken(value));
      }
      res := Response(200, LoggedOut, [RefreshCookie("", 0, env)]);
    }

    // ----- the tenant admin's dashboard -----

    method AddOrigin(jar: CookieJar, url: string, env: Env, draws: Draws, now: int) returns (res: Response)
      requires Valid()
      modifies this
      ensures Valid() && Outcome(res, Snapshot()) == RU.Add(old(Snapshot()), jar, url, env, draws, now)
    {
      var admin := RU.Admin(jar, env);
      if admin.None? {
        return Failure(401, UNAUTHORIZED);
      }
      if !Present(url) {
        return Failure(400, RU.URL_REQUIRED);
      }
      var origin := env.originOf(url);
      if origin.None? {
        return Failure(400, RU.INVALID_URL);
      }
      var row := RU.NewOrigin(admin.value, origin.value, draws, now);
      var created := InsertOrigin(db, row);
      if created.None? {
        return Failure(409, RU.ALREADY_REGISTERED);
      }
      db := created.value;
      res := Response(201, OriginCreated(RU.View(row)), []);
    }

    method RemoveOrigin(jar: CookieJar, id: Id, env: Env) returns (res: Response)
      requires Valid()
      modifies this
      ensures Valid() && Outcome(res, Snapshot()) == RU.Remove(old(Snapshot()), jar, id, env)
    {
      var admin := RU.Admin(jar, env);
      if admin.None? {
        return Failure(401, UNAUTHORIZED);
      }
      if !Present(id) {
        return Failure(400, RU.ID_REQUIRED);
      }
      if OwnedOrigin(db.origins, id, admin.value.customerId).None? {
        return Failure(404, RU.NOT_FOUND);
      }
      db := DeleteOrigin(db, id);
      res := Response(200, OriginRemoved, []);
    }

    method ChangePassword(jar: CookieJar, req: AA.PasswordChange, env: Env) returns (res: Response)
      requires Valid()
      modifies this
      ensures Valid() && Outcome(res, Snapshot()) == AA.ChangePassword(old(Snapshot()), jar, req, env)
    {
      var admin := AA.Admin(jar, env);
      if admin.None? {
        return Failure(401, UNAUTHORIZED);
      }
      if !Present(req.currentPassword) || !Present(req.newPassword) {
        return Failure(400, ALL_FIELDS);
      }
      if |req.newPassword| < AA.MIN_PASSWORD {
        return Failure(400, AA.TOO_SHORT);
      }
      var found := UserById(db.users, admin.value.userId);
      if found.None? {
        return Failure(404, AA.USER_NOT_FOUND);
      }
      if !env.checkPassword(found.value.password, req.currentPassword) {
        return Failure(401, AA.WRONG_PASSWORD);
      }
      db := SetPassword(db, found.value.id, env.hashPassword(req.newPassword));
      res := Response(200, PasswordUpdated, []);
    }

    // ----- tenant creation -----

    method CompanySetup(req: TotpRequest, env: Env, draws: Draws, now: int) returns (res: Response)
      requires Valid()
      modifies this
      ensures Valid() && Outcome(res, Snapshot()) == CR.CompanySetup(old(Snapshot()), req, env, draws, now)
    {
      if !Present(req.tempToken) || !Present(req.totpCode) {
        return Failure(400, ALL_FIELDS);
      }
      var key := PendingCompanyReg(req.tempToken);
      if key !in cache {
        return Failure(401, CR.SESSION_EXPIRED);
      }
      var p := cache[key].payload;
      if !env.verifyTotp(p.totpSecret, req.totpCode) {
        return Failure(401, INVALID_TOTP);
      }
      var tx := CR.FoundTx(db, Customer(draws.customerId, p.companyName),
                           User(draws.userId, p.email, p.hashedPassword, Some(p.totpSecret)), now);
      if tx.None? {
        return Failure(500, INTERNAL_ERROR);
      }
      db := tx.value;
      cache := cache - {key};
      res := Response(201, CompanyRegistered(draws.customerId), []);
    }

    method RegisterCustomer(req: CR.CustomerRequest, env: Env, draws: Draws, now: int) returns (res: Response)
      requires Valid()
      modifies this
      ensures Valid() && Outcome(res, Snapshot()) == CR.RegisterCustomer(old(Snapshot()), req, env, draws, now)
    {
      if !Present(req.companyName) || !Present(req.email) || !Present(req.password) {
        return Failure(400, ALL_FIELDS);
      }
      if UserByEmail(db.users, req.email).Some? {
        return Failure(409, CR.EMAIL_TAKEN);
      }
      var admin := User(draws.userId, req.email, env.hashPassword(req.password), None);
      var tx := CR.FoundTx(db, Customer(draws.customerId, req.companyName), admin, now);
      if tx.None? {
        return Failure(500, INTERNAL_ERROR);
      }
      db := tx.value;
      res := Response(201, AccountCreated(draws.userId, draws.customerId), []);
    }
  }
}
