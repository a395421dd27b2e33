/**
  The admin dashboard's account routes, each behind the admin gate and
  scoped to the tenant in the admin's token: `ChangePassword`
  (change-password route, the only one that writes), `ListUsers` (users
  route), `StatsOf` (stats route) and `MeOf` (me route).
*/
module AdminAccount {
  import opened Wrappers
  import opened Capabilities
  import opened Durable
  import opened Http
  import opened Stores
  import AdminAuth
  import RedirectUrls

  const TOO_SHORT := "New password must be at least 8 characters"
  const MIN_PASSWORD := 8
  const USER_NOT_FOUND := "User not found"
  const WRONG_PASSWORD := "Current password is incorrect"

  function Admin(jar: CookieJar, env: Env): Option<AdminClaims> {
    AdminAuth.GetAdminFromCookie(jar, env.verifyAdmin)
  }

  datatype PasswordChange = PasswordChange(currentPassword: string, newPassword: string)

  function ChangePassword(s: State, jar: CookieJar, req: PasswordChange, env: Env): (r: Outcome)
    requires s.Valid()
    ensures r.state.Valid() && Extends(s, r.state)
    ensures r.state == State(s.db.(users := r.state.db.users), s.cache)
    ensures Admin(jar, env).None? ==> r.response == Failure(401, UNAUTHORIZED)
    ensures Admin(jar, env).Some? && (!Present(req.currentPassword) || !Present(req.newPassword)) ==>
      r.response == Failure(400, ALL_FIELDS)
    // the length check comes before any lookup; exactly 8 characters passes
    ensures (Admin(jar, env).Some? && Present(req.currentPassword) && Present(req.newPassword)
             && |req.newPassword| < MIN_PASSWORD) ==>
      r.response == Failure(400, TOO_SHORT)
    ensures (Admin(jar, env).Some? && Present(req.currentPassword) && |req.newPassword| >= MIN_PASSWORD
             && Admin(jar, env).value.userId !in UserIds(s.db.users)) ==>
      r.response == Failure(404, USER_NOT_FOUND)
    ensures (Admin(jar, env).Some? && Present(req.currentPassword) && |req.newPassword| >= MIN_PASSWORD
             && UserById(s.db.users, Admin(jar, env).value.userId).Some?
             && !env.checkPassword(UserById(s.db.users, Admin(jar, env).value.userId).value.password,
                                   req.currentPassword)) ==>
      r.response == Failure(401, WRONG_PASSWORD)
    ensures r.response.status == 200 <==>
      && Admin(jar, env).Some? && Present(req.currentPassword) && |req.newPassword| >= MIN_PASSWORD
      && UserById(s.db.users, Admin(jar, env).value.userId).Some?
      && env.checkPassword(UserById(s.db.users, Admin(jar, env).value.userId).value.password, req.currentPassword)
    ensures r.response.status != 200 ==> r.state == s
    // success rewrites the password hash of the token's user and nothing else
    ensures r.response.status == 200 ==>
      && r.response == Response(200, PasswordUpdated, [])
      && r.state.db == SetPassword(s.db, Admin(jar, env).value.userId, env.hashPassword(req.newPassword))
  {
    match Admin(jar, env)
    case None => Reject(s, 401, UNAUTHORIZED)
    case Some(admin) =>
      if !Present(req.currentPassword) || !Present(req.newPassword) then Reject(s, 400, ALL_FIELDS)
      else if |req.newPassword| < MIN_PASSWORD then Reject(s, 400, TOO_SHORT)
      else match UserById(s.db.users, admin.userId)
        case None => Reject(s, 404, USER_NOT_FOUND)
        case Some(u) =>
          if !env.checkPassword(u.password, req.currentPassword) then Reject(s, 401, WRONG_PASSWORD)
          else Outcome(Response(200, PasswordUpdated, []),
                       State(SetPassword(s.db, u.id, env.hashPassword(req.newPassword)), s.cache))
  }

  /** After a change the stored hash is that of the new password; the old one is gone. */
  lemma {:induction false} NewPasswordStored(s: State, jar: CookieJar, req: PasswordChange, env: Env)
    requires s.Valid() && ChangePassword(s, jar, req, env).response.status == 200
    ensures var db1 := ChangePassword(s, jar, req, env).state.db;
      var id := Admin(jar, env).value.userId;
      && UserById(db1.users, id).Some?
      && UserById(db1.users, id).value.password == env.hashPassword(req.newPassword)
      && SameIdentity(UserById(s.db.users, id).value, UserById(db1.users, id).value)
  {
    var id := Admin(jar, env).value.userId;
    SetPasswordFindsNewHash(s.db, id, env.hashPassword(req.newPassword));
  }

  /** The tenant's memberships, in creation order. */
  function TenantMembers(ms: seq<Membership>, customerId: Id): (r: seq<Membership>)
    ensures |r| <= |ms|
    ensures forall m :: m in r <==> m in ms && m.customerId == customerId
  {
    if ms == [] then []
    else (if ms[0].customerId == customerId then [ms[0]] else []) + TenantMembers(ms[1..], customerId)
  }

  /** Order and multiplicity: a new membership joins the end of its own tenant's listing only. */
  lemma {:induction false} TenantMembersAppend(ms: seq<Membership>, m: Membership, customerId: Id)
    ensures TenantMembers(ms + [m], customerId)
         == TenantMembers(ms, customerId) + (if m.customerId == customerId then [m] else [])
  {
    if ms == [] {
      assert [m][1..] == [];
    } else {
      assert (ms + [m])[1..] == ms[1..] + [m];
      TenantMembersAppend(ms[1..], m, customerId);
    }
  }

  /** Each membership as `{ id, email, role, joinedAt }`, the user found through the foreign key. */
  function Rows(users: seq<User>, ms: seq<Membership>): (r: seq<UserRow>)
    requires forall m :: m in ms ==> m.userId in UserIds(users)
    ensures |r| == |ms|
    ensures forall i :: 0 <= i < |ms| ==>
      && r[i].id == ms[i].userId && r[i].role == RoleName(ms[i].role) && r[i].joinedAt == ms[i].createdAt
      && exists u :: u in users && u.id == ms[i].userId && u.email == r[i].email
  {
    seq(|ms|, i requires 0 <= i < |ms| =>
      var u := UserById(users, ms[i].userId).value;
      UserRow(u.id, u.email, RoleName(ms[i].role), ms[i].createdAt))
  }

  /** GET users: reads only. */
  function ListUsers(s: State, jar: CookieJar, env: Env): (r: Response)
    requires s.Valid()
    ensures Admin(jar, env).None? ==> r == Failure(401, UNAUTHORIZED)
    ensures Admin(jar, env).Some? ==>
      var ms := TenantMembers(s.db.memberships, Admin(jar, env).value.customerId);
      r.status == 200 && r.body.UserList? && r.body.users == Rows(s.db.users, ms)
  {
    match Admin(jar, env)
    case None => Failure(401, UNAUTHORIZED)
    case Some(admin) => Response(200, UserList(Rows(s.db.users, TenantMembers(s.db.memberships, admin.customerId))), [])
  }

  /** `count({ where: { customerId } })` on memberships. */
  function CountMembers(ms: seq<Membership>, customerId: Id): (c: nat)
    ensures c <= |ms|
    ensures c == 0 <==> forall i :: 0 <= i < |ms| ==> ms[i].customerId != customerId
  {
    if ms == [] then 0
    else (if ms[0].customerId == customerId then 1 else 0) + CountMembers(ms[1..], customerId)
  }

  /** `count({ where: { customerId } })` on allowed origins. */
  function CountOrigins(os: seq<AllowedOrigin>, customerId: Id): (c: nat)
    ensures c <= |os|
    ensures c == 0 <==> forall i :: 0 <= i < |os| ==> os[i].customerId != customerId
  {
    if os == [] then 0
    else (if os[0].customerId == customerId then 1 else 0) + CountOrigins(os[1..], customerId)
  }

  /** The counts are the lengths of the tenant's listings. */
  lemma {:induction false} CountsMatchListings(db: Db, customerId: Id)
    ensures CountMembers(db.memberships, customerId) == |TenantMembers(db.memberships, customerId)|
    ensures CountOrigins(db.origins, customerId) == |RedirectUrls.TenantViews(db.origins, customerId)|
  {
    MemberCount(db.memberships, customerId);
    OriginCount(db.origins, customerId);
  }

  lemma {:induction false} MemberCount(ms: seq<Membership>, customerId: Id)
    ensures CountMembers(ms, customerId) == |TenantMembers(ms, customerId)|
  {
    if ms != [] {
      MemberCount(ms[1..], customerId);
    }
  }

  lemma {:induction false} OriginCount(os: seq<AllowedOrigin>, customerId: Id)
    ensures CountOrigins(os, customerId) == |RedirectUrls.TenantViews(os, customerId)|
  {
    if os != [] {
      OriginCount(os[1..], customerId);
    }
  }

  /** Tenant isolation of the counts: another tenant's new rows do not change them. */
  lemma {:induction false} OtherTenantsNotCounted(ms: seq<Membership>, m: Membership, customerId: Id)
    requires m.customerId != customerId
    ensures CountMembers(ms + [m], customerId) == CountMembers(ms, customerId)
  {
    if ms == [] {
      assert [m][1..] == [];
    } else {
      assert (ms + [m])[1..] == ms[1..] + [m];
      OtherTenantsNotCounted(ms[1..], m, customerId);
    }
  }

  /** GET stats: reads only. */
  function StatsOf(s: State, jar: CookieJar, env: Env): (r: Response)
    ensures Admin(jar, env).None? ==> r == Failure(401, UNAUTHORIZED)
    ensures Admin(jar, env).Some? ==>
      var c := Admin(jar, env).value.customerId;
      && r == Response(200, Stats(CountMembers(s.db.memberships, c), CountOrigins(s.db.origins, c)), [])
      && r.body.totalUsers == |TenantMembers(s.db.memberships, c)|
      && r.body.totalRedirectUrls == |RedirectUrls.TenantViews(s.db.origins, c)|
  {
    match Admin(jar, env)
    case None => Failure(401, UNAUTHORIZED)
    case Some(admin) =>
      CountsMatchListings(s.db, admin.customerId);
      Response(200, Stats(CountMembers(s.db.memberships, admin.customerId),
                          CountOrigins(s.db.origins, admin.customerId)), [])
  }

  /** GET me: the identity is echoed from the token; only the company name is read. */
  function MeOf(s: State, jar: CookieJar, env: Env): (r: Response)
    ensures Admin(jar, env).None? ==> r == Failure(401, UNAUTHORIZED)
    ensures Admin(jar, env).Some? ==>
      var a := Admin(jar, env).value;
      && r.status == 200 && r.body.Me? && r.cookies == []
      && r.body.userId == a.userId && r.body.email == a.email
      && r.body.customerId == a.customerId && r.body.role == a.role
      && (CustomerById(s.db.customers, a.customerId).None? ==> r.body.companyName == "")
      && (CustomerById(s.db.customers, a.customerId).Some? ==>
            r.body.companyName == CustomerById(s.db.customers, a.customerId).value.name)
  {
    match Admin(jar, env)
    case None => Failure(401, UNAUTHORIZED)
    case Some(a) =>
      var name := match CustomerById(s.db.customers, a.customerId)
        case None => ""
        case Some(c) => c.name;
      Response(200, Me(a.userId, a.email, a.customerId, a.role, name), [])
  }

  /** A token whose user has since gone from the store is still echoed unchanged. */
  lemma {:induction false} MeIgnoresUserTable(s: State, jar: CookieJar, env: Env, users: seq<User>)
    ensures MeOf(s.(db := s.db.(users := users)), jar, env) == MeOf(s, jar, env)
  {
  }
}
