/**
  Creating a tenant with its first admin, in one transaction: the customer,
  the user and an `admin` membership, all or nothing. `CompanySetup`
  (2fa/company-setup route) does it after a TOTP check against a staged
  `pending_company_reg` entry and then consumes the entry; `RegisterCustomer`
  (register-customer route) does it directly, without 2FA, so its admin has
  no TOTP secret and cannot pass admin login.
*/
module CompanyRegistration {
  import opened Wrappers
  import opened Capabilities
  import opened Durable
  import opened Ephemeral
  import opened Http
  import opened Stores
  import AdminLogin

  const SESSION_EXPIRED := "Registration session expired or invalid. Please start again."
  const EMAIL_TAKEN := "An account with this email already exists"

  /** The `$transaction` both routes run. */
  function FoundTx(db: Db, customer: Customer, admin: User, now: int): (r: Option<Db>)
    requires db.Valid()
    ensures r.Some? ==> r.value.Valid() && Grows(db, r.value)
    // all three rows, or none
    ensures r.Some? ==> r.value == db.(
      customers := db.customers + [customer],
      users := db.users + [admin],
      memberships := db.memberships + [Membership(admin.id, customer.id, AdminRole, now)])
    ensures r.Some? <==>
      customer.id !in CustomerIds(db.customers) && admin.id !in UserIds(db.users)
      && UserByEmail(db.users, admin.email).None?
  {
    match InsertCustomer(db, customer)
    case None => None
    case Some(db1) =>
      match InsertUser(db1, admin)
      case None => None
      case Some(db2) =>
        var m := Membership(admin.id, customer.id, AdminRole, now);
        assert admin.id in UserIds(db2.users) && customer.id in CustomerIds(db2.customers);
        var db3 := InsertMembership(db2, m);
        GrowsTransitive(db, db1, db2);
        GrowsTransitive(db, db2, db3.value);
        db3
  }

  function CompanySetup(s: State, req: TotpRequest, env: Env, draws: Draws, now: int): (r: Outcome)
    requires s.Valid()
    ensures r.state.Valid() && Extends(s, r.state)
    ensures r.state.db.refreshTokens == s.db.refreshTokens && r.state.db.origins == s.db.origins
    ensures r.state.cache.Keys <= s.cache.Keys
    ensures !Present(req.tempToken) || !Present(req.totpCode) ==>
      r.response == Failure(400, ALL_FIELDS) && r.state == s
    ensures (Present(req.tempToken) && Present(req.totpCode) && PendingCompanyReg(req.tempToken) !in s.cache) ==>
      r.response == Failure(401, SESSION_EXPIRED) && r.state == s
    // a wrong code keeps the pending entry and creates nothing
    ensures (Present(req.tempToken) && Present(req.totpCode) && PendingCompanyReg(req.tempToken) in s.cache
             && !env.verifyTotp(s.cache[PendingCompanyReg(req.tempToken)].payload.totpSecret, req.totpCode)) ==>
      r.response == Failure(401, INVALID_TOTP) && r.state == s
    ensures r.response.status != 201 ==> r.state == s
    // a valid code whose transaction is refused reports 500 and keeps the pending entry
    ensures (Present(req.tempToken) && Present(req.totpCode) && PendingCompanyReg(req.tempToken) in s.cache
             && var p := s.cache[PendingCompanyReg(req.tempToken)].payload;
             && env.verifyTotp(p.totpSecret, req.totpCode)
             && FoundTx(s.db, Customer(draws.customerId, p.companyName),
                        User(draws.userId, p.email, p.hashedPassword, Some(p.totpSecret)), now).None?) ==>
      r.response == Failure(500, INTERNAL_ERROR) && r.state == s
    ensures r.response.status == 201 <==>
      && Present(req.tempToken) && Present(req.totpCode) && PendingCompanyReg(req.tempToken) in s.cache
      && var p := s.cache[PendingCompanyReg(req.tempToken)].payload;
      && env.verifyTotp(p.totpSecret, req.totpCode)
      && FoundTx(s.db, Customer(draws.customerId, p.companyName),
                 User(draws.userId, p.email, p.hashedPassword, Some(p.totpSecret)), now).Some?
    // success: the tenant and its admin (with the staged secret) exist, the entry is gone;
    // no refresh token, no `auth_id`, no cookie
    ensures r.response.status == 201 ==>
      var p := s.cache[PendingCompanyReg(req.tempToken)].payload;
      && r.state.db == FoundTx(s.db, Customer(draws.customerId, p.companyName),
                               User(draws.userId, p.email, p.hashedPassword, Some(p.totpSecret)), now).value
      && r.state.cache == s.cache - {PendingCompanyReg(req.tempToken)}
      && r.response == Response(201, CompanyRegistered(draws.customerId), [])
  {
    if !Present(req.tempToken) || !Present(req.totpCode) then Reject(s, 400, ALL_FIELDS)
    else if PendingCompanyReg(req.tempToken) !in s.cache then Reject(s, 401, SESSION_EXPIRED)
    else
      var p := s.cache[PendingCompanyReg(req.tempToken)].payload;
      if !env.verifyTotp(p.totpSecret, req.totpCode) then Reject(s, 401, INVALID_TOTP)
      else
        match FoundTx(s.db, Customer(draws.customerId, p.companyName),
                      User(draws.userId, p.email, p.hashedPassword, Some(p.totpSecret)), now)
        case None => Reject(s, 500, INTERNAL_ERROR)
        case Some(db1) =>
          Outcome(Response(201, CompanyRegistered(draws.customerId), []),
                  Consume(State(db1, s.cache), PendingCompanyReg(req.tempToken)))
  }

  datatype CustomerRequest = CustomerRequest(companyName: string, email: string, password: string)

  function RegisterCustomer(s: State, req: CustomerRequest, env: Env, draws: Draws, now: int): (r: Outcome)
    requires s.Valid()
    ensures r.state.Valid() && Extends(s, r.state)
    ensures r.state.cache == s.cache
    ensures r.state.db.refreshTokens == s.db.refreshTokens && r.state.db.origins == s.db.origins
    ensures !Present(req.companyName) || !Present(req.email) || !Present(req.password) ==>
      r.response == Failure(400, ALL_FIELDS)
    ensures (Present(req.companyName) && Present(req.email) && Present(req.password)
             && UserByEmail(s.db.users, req.email).Some?) ==>
      r.response == Failure(409, EMAIL_TAKEN)
    ensures r.response.status != 201 ==> r.state == s
    ensures r.response.status == 201 <==>
      && Present(req.companyName) && Present(req.email) && Present(req.password)
      && FoundTx(s.db, Customer(draws.customerId, req.companyName),
                 User(draws.userId, req.email, env.hashPassword(req.password), None), now).Some?
    // success: the admin is created without a TOTP secret
    ensures r.response.status == 201 ==>
      && r.state.db == FoundTx(s.db, Customer(draws.customerId, req.companyName),
                               User(draws.userId, req.email, env.hashPassword(req.password), None), now).value
      && r.response == Response(201, AccountCreated(draws.userId, draws.customerId), [])
  {
    if !Present(req.companyName) || !Present(req.email) || !Present(req.password) then Reject(s, 400, ALL_FIELDS)
    else if UserByEmail(s.db.users, req.email).Some? then Reject(s, 409, EMAIL_TAKEN)
    else
      match FoundTx(s.db, Customer(draws.customerId, req.companyName),
                    User(draws.userId, req.email, env.hashPassword(req.password), None), now)
      case None => Reject(s, 500, INTERNAL_ERROR)
      case Some(db1) =>
        Outcome(Response(201, AccountCreated(draws.userId, draws.customerId), []), State(db1, s.cache))
  }

  /**
    An admin created without 2FA is stopped at admin login with 403, even
    with the right password (provided the password check accepts the hash
    of the password it was made from, and generated ids are not empty).
  */
  lemma {:induction false} DirectAdminCannotLogIn(s: State, req: CustomerRequest, env: Env, draws: Draws, now: int)
    requires s.Valid()
    requires forall p :: env.checkPassword(env.hashPassword(p), p)
    requires RegisterCustomer(s, req, env, draws, now).response.status == 201
    requires Present(draws.customerId)
    ensures var s1 := RegisterCustomer(s, req, env, draws, now).state;
      AdminLogin.Login(s1, AdminLogin.AdminLoginRequest(req.email, req.password, draws.customerId), env).response
      == Failure(403, NO_TOTP)
  {
    var admin := User(draws.userId, req.email, env.hashPassword(req.password), None);
    var db1 := FoundTx(s.db, Customer(draws.customerId, req.companyName), admin, now).value;
    FoundAdminIsFound(s.db, Customer(draws.customerId, req.companyName), admin, now);
    assert RegisterCustomer(s, req, env, draws, now).state == State(db1, s.cache);
    AdminWithoutTotpRefused(State(db1, s.cache), AdminLogin.AdminLoginRequest(req.email, req.password, draws.customerId), env, admin);
  }

  /** Admin login refuses a known admin with the right password but no secret. */
  lemma {:induction false} AdminWithoutTotpRefused(s: State, req: AdminLogin.AdminLoginRequest, env: Env, u: User)
    requires s.Valid() && AdminLogin.AllFields(req)
    requires UserByEmail(s.db.users, req.email) == Some(u) && u.totpSecret.None?
    requires AdminLogin.IsAdminOf(s.db, u, req.customerId) && env.checkPassword(u.password, req.password)
    ensures AdminLogin.Login(s, req, env).response == Failure(403, NO_TOTP)
  {
  }

  /** After the transaction, the admin is found by email and holds the `admin` membership. */
  lemma {:induction false} FoundAdminIsFound(db: Db, customer: Customer, admin: User, now: int)
    requires db.Valid() && FoundTx(db, customer, admin, now).Some?
    ensures var db1 := FoundTx(db, customer, admin, now).value;
      && UserByEmail(db1.users, admin.email) == Some(admin)
      && MembershipOf(db1.memberships, admin.id, customer.id) == Some(Membership(admin.id, customer.id, AdminRole, now))
  {
    var db1 := FoundTx(db, customer, admin, now).value;
    var m := Membership(admin.id, customer.id, AdminRole, now);
    assert db1.users[|db.users|] == admin;
    assert UserByEmail(db1.users, admin.email) == Some(admin) by {
      var v := UserByEmail(db1.users, admin.email).value;
      var i :| 0 <= i < |db1.users| && db1.users[i] == v;
      assert i == |db.users|;
    }
    assert db1.memberships[|db.memberships|] == m;
    assert MembershipOf(db1.memberships, admin.id, customer.id) == Some(m) by {
      var x := MembershipOf(db1.memberships, admin.id, customer.id).value;
      var i :| 0 <= i < |db1.memberships| && db1.memberships[i] == x;
      var j := |db.memberships|;
      if i < j {
        assert !SamePair(db1.memberships[i], db1.memberships[j]);
      }
    }
  }
}
