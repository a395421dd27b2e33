/**
  The durable identity store (the Prisma tables): customers, users, the
  user/customer memberships, the allowed redirect origins and the refresh
  tokens. Each table is a sequence in creation order, which stands for the
  `createdAt` order the listing routes sort by. The insert functions fail,
  like the database does, when a row would break a unique key or a foreign
  key, and leave the store unchanged.
*/
module Durable {
  import opened Wrappers
  import opened Capabilities
  import opened Seqs

  datatype Role = AdminRole | UserRole

  /** The role as stored and as copied into token claims. */
  function RoleName(r: Role): (name: string)
    ensures name == "admin" <==> r == AdminRole
    ensures name == "user" <==> r == UserRole
  {
    match r
    case AdminRole => "admin"
    case UserRole => "user"
  }

  datatype Customer = Customer(id: Id, name: string)
  datatype User = User(id: Id, email: string, password: PasswordHash, totpSecret: Option<Secret>)
  datatype Membership = Membership(userId: Id, customerId: Id, role: Role, createdAt: int)
  datatype AllowedOrigin = AllowedOrigin(id: Id, customerId: Id, origin: string, createdAt: int)
  datatype RefreshToken = RefreshToken(
    id: Id, token: TokenHash, userId: Id, customerId: Id,
    expiresAt: int, revoked: bool, replacedBy: Option<TokenHash>)

  datatype Db = Db(
    customers: seq<Customer>,
    users: seq<User>,
    memberships: seq<Membership>,
    origins: seq<AllowedOrigin>,
    refreshTokens: seq<RefreshToken>)
  {
    /** The unique keys and foreign keys the database enforces. */
    ghost predicate Valid() {
      && (forall i, j :: 0 <= i < j < |customers| ==> customers[i].id != customers[j].id)
      && (forall i, j :: 0 <= i < j < |users| ==> users[i].id != users[j].id)
      && (forall i, j :: 0 <= i < j < |users| ==> users[i].email != users[j].email)
      && (forall i, j :: 0 <= i < j < |memberships| ==>
            !SamePair(memberships[i], memberships[j]))
      && (forall m :: m in memberships ==>
            m.userId in UserIds(users) && m.customerId in CustomerIds(customers))
      && (forall i, j :: 0 <= i < j < |origins| ==> origins[i].id != origins[j].id)
      && (forall i, j :: 0 <= i < j < |origins| ==>
            !(origins[i].customerId == origins[j].customerId && origins[i].origin == origins[j].origin))
      && (forall o :: o in origins ==> o.customerId in CustomerIds(customers))
      && (forall i, j :: 0 <= i < j < |refreshTokens| ==> refreshTokens[i].id != refreshTokens[j].id)
      && (forall t :: t in refreshTokens ==> t.userId in UserIds(users))
    }
  }

  predicate SamePair(a: Membership, b: Membership) {
    a.userId == b.userId && a.customerId == b.customerId
  }

  function CustomerIds(cs: seq<Customer>): set<Id> {
    set c | c in cs :: c.id
  }

  function UserIds(us: seq<User>): set<Id> {
    set u | u in us :: u.id
  }

  /** Users keep their id, email and TOTP secret; only the password hash changes. */
  predicate SameIdentity(u: User, u': User) {
    u'.id == u.id && u'.email == u.email && u'.totpSecret == u.totpSecret
  }

  /** A refresh-token row keeps its binding; once revoked it stays revoked. */
  predicate Evolved(t: RefreshToken, t': RefreshToken) {
    && t'.id == t.id && t'.token == t.token
    && t'.userId == t.userId && t'.customerId == t.customerId && t'.expiresAt == t.expiresAt
    && (t.revoked ==> t'.revoked)
  }

  /** What no write undoes: customers and memberships are append-only (so a
      role never changes), users are never removed and keep their identity,
      refresh-token rows are never removed and never un-revoked. Allowed
      origins may be deleted. */
  ghost predicate Grows(db: Db, db': Db) {
    && db.customers <= db'.customers
    && db.memberships <= db'.memberships
    && |db.users| <= |db'.users|
    && (forall i :: 0 <= i < |db.users| ==> SameIdentity(db.users[i], db'.users[i]))
    && |db.refreshTokens| <= |db'.refreshTokens|
    && (forall i :: 0 <= i < |db.refreshTokens| ==> Evolved(db.refreshTokens[i], db'.refreshTokens[i]))
  }

  /** Every refresh-token row added between `db` and `db'` carries the digest `h`. */
  ghost predicate MintsOnly(db: Db, db': Db, h: TokenHash) {
    forall j :: |db.refreshTokens| <= j < |db'.refreshTokens| ==> db'.refreshTokens[j].token == h
  }

  lemma GrowsTransitive(db1: Db, db2: Db, db3: Db)
    requires Grows(db1, db2) && Grows(db2, db3)
    ensures Grows(db1, db3)
  {
  }

  // ----- lookups -----

  /** `customer.findUnique({ where: { id } })` */
  function CustomerById(cs: seq<Customer>, id: Id): (r: Option<Customer>)
    ensures r.Some? ==> r.value in cs && r.value.id == id
    ensures r.None? <==> id !in CustomerIds(cs)
  {
    FindFirst(cs, (c: Customer) => c.id == id)
  }

  /** `user.findUnique({ where: { email } })` */
  function UserByEmail(us: seq<User>, email: string): (r: Option<User>)
    ensures r.Some? ==> r.value in us && r.value.email == email
    ensures r.None? <==> forall u :: u in us ==> u.email != email
  {
    FindFirst(us, (u: User) => u.email == email)
  }

  /** `user.findUnique({ where: { id } })` */
  function UserById(us: seq<User>, id: Id): (r: Option<User>)
    ensures r.Some? ==> r.value in us && r.value.id == id
    ensures r.None? <==> id !in UserIds(us)
  {
    FindFirst(us, (u: User) => u.id == id)
  }

  /** `usersOnCustomers.findUnique({ where: { userId_customerId } })` */
  function MembershipOf(ms: seq<Membership>, userId: Id, customerId: Id): (r: Option<Membership>)
    ensures r.Some? ==> r.value in ms && r.value.userId == userId && r.value.customerId == customerId
    ensures r.None? <==> forall m :: m in ms ==> !(m.userId == userId && m.customerId == customerId)
  {
    FindFirst(ms, (m: Membership) => m.userId == userId && m.customerId == customerId)
  }

  /** `allowedRedirectUrl.findFirst({ where: { customerId, origin } })` */
  function OriginRow(os: seq<AllowedOrigin>, customerId: Id, origin: string): (r: Option<AllowedOrigin>)
    ensures r.Some? ==> r.value in os && r.value.customerId == customerId && r.value.origin == origin
    ensures r.None? <==> forall o :: o in os ==> !(o.customerId == customerId && o.origin == origin)
  {
    FindFirst(os, (o: AllowedOrigin) => o.customerId == customerId && o.origin == origin)
  }

  /** `allowedRedirectUrl.findFirst({ where: { id, customerId } })` */
  function OwnedOrigin(os: seq<AllowedOrigin>, id: Id, customerId: Id): (r: Option<AllowedOrigin>)
    ensures r.Some? ==> r.value in os && r.value.id == id && r.value.customerId == customerId
    ensures r.None? <==> forall o :: o in os ==> !(o.id == id && o.customerId == customerId)
  {
    FindFirst(os, (o: AllowedOrigin) => o.id == id && o.customerId == customerId)
  }

  /** `refreshToken.findFirst({ where: { token, revoked: false } })` */
  function LiveToken(ts: seq<RefreshToken>, h: TokenHash): (r: Option<RefreshToken>)
    ensures r.Some? ==> r.value in ts && r.value.token == h && !r.value.revoked
    ensures r.None? <==> forall t :: t in ts ==> !(t.token == h && !t.revoked)
  {
    FindFirst(ts, (t: RefreshToken) => t.token == h && !t.revoked)
  }

  // ----- inserts: None when the database would reject the row -----

  function InsertCustomer(db: Db, c: Customer): (r: Option<Db>)
    requires db.Valid()
    ensures r.Some? <==> c.id !in CustomerIds(db.customers)
    ensures r.Some? ==> r.value.Valid() && r.value == db.(customers := db.customers + [c])
    ensures r.Some? ==> Grows(db, r.value)
  {
    if c.id in CustomerIds(db.customers) then None
    else
      var db' := db.(customers := db.customers + [c]);
      assert CustomerIds(db'.customers) == CustomerIds(db.customers) + {c.id};
      Some(db')
  }

  function InsertUser(db: Db, u: User): (r: Option<Db>)
    requires db.Valid()
    ensures r.Some? <==> u.id !in UserIds(db.users) && UserByEmail(db.users, u.email).None?
    ensures r.Some? ==> r.value.Valid() && r.value == db.(users := db.users + [u])
    ensures r.Some? ==> Grows(db, r.value)
  {
    if u.id in UserIds(db.users) || UserByEmail(db.users, u.email).Some? then None
    else
      var db' := db.(users := db.users + [u]);
      assert UserIds(db'.users) == UserIds(db.users) + {u.id};
      Some(db')
  }

  function InsertMembership(db: Db, m: Membership): (r: Option<Db>)
    requires db.Valid()
    ensures r.Some? <==>
      && MembershipOf(db.memberships, m.userId, m.customerId).None?
      && m.userId in UserIds(db.users)
      && m.customerId in CustomerIds(db.customers)
    ensures r.Some? ==> r.value.Valid() && r.value == db.(memberships := db.memberships + [m])
    ensures r.Some? ==> Grows(db, r.value)
  {
    if MembershipOf(db.memberships, m.userId, m.customerId).Some?
       || m.userId !in UserIds(db.users) || m.customerId !in CustomerIds(db.customers)
    then None
    else Some(db.(memberships := db.memberships + [m]))
  }

  function InsertOrigin(db: Db, o: AllowedOrigin): (r: Option<Db>)
    requires db.Valid()
    ensures r.Some? <==>
      && (forall x :: x in db.origins ==> x.id != o.id)
      && OriginRow(db.origins, o.customerId, o.origin).None?
      && o.customerId in CustomerIds(db.customers)
    ensures r.Some? ==> r.value.Valid() && r.value == db.(origins := db.origins + [o])
    ensures r.Some? ==> Grows(db, r.value)
  {
    if FindFirst(db.origins, (x: AllowedOrigin) => x.id == o.id).Some?
       || OriginRow(db.origins, o.customerId, o.origin).Some?
       || o.customerId !in CustomerIds(db.customers)
    then None
    else Some(db.(origins := db.origins + [o]))
  }

  function InsertRefreshToken(db: Db, t: RefreshToken): (r: Option<Db>)
    requires db.Valid()
    ensures r.Some? <==> (forall x :: x in db.refreshTokens ==> x.id != t.id) && t.userId in UserIds(db.users)
    ensures r.Some? ==> r.value.Valid() && r.value == db.(refreshTokens := db.refreshTokens + [t])
    ensures r.Some? ==> Grows(db, r.value)
  {
    if FindFirst(db.refreshTokens, (x: RefreshToken) => x.id == t.id).Some? || t.userId !in UserIds(db.users)
    then None
    else Some(db.(refreshTokens := db.refreshTokens + [t]))
  }

  // ----- updates and deletes -----

  /** `user.update({ where: { id }, data: { password } })` */
  function SetPassword(db: Db, id: Id, h: PasswordHash): (r: Db)
    requires db.Valid()
    ensures r.Valid() && Grows(db, r)
    ensures r == db.(users := r.users)
    ensures |r.users| == |db.users|
    ensures forall i :: 0 <= i < |db.users| ==>
      r.users[i] == if db.users[i].id == id then db.users[i].(password := h) else db.users[i]
  {
    var us := seq(|db.users|, i requires 0 <= i < |db.users| =>
      if db.users[i].id == id then db.users[i].(password := h) else db.users[i]);
    assert UserIds(us) == UserIds(db.users) by {
      forall x | x in UserIds(db.users) ensures x in UserIds(us) {
        var u :| u in db.users && u.id == x;
        var i :| 0 <= i < |db.users| && db.users[i] == u;
        assert us[i].id == x;
      }
    }
    db.(users := us)
  }

  /** The rotation's `refreshToken.update({ where: { id }, data: { revoked: true, replacedBy } })` */
  function RevokeRow(db: Db, id: Id, successor: TokenHash): (r: Db)
    requires db.Valid()
    ensures r.Valid() && Grows(db, r)
    ensures r == db.(refreshTokens := r.refreshTokens)
    ensures |r.refreshTokens| == |db.refreshTokens|
    ensures forall i :: 0 <= i < |db.refreshTokens| ==>
      r.refreshTokens[i] ==
        if db.refreshTokens[i].id == id
        then db.refreshTokens[i].(revoked := true, replacedBy := Some(successor))
        else db.refreshTokens[i]
  {
    var ts := seq(|db.refreshTokens|, i requires 0 <= i < |db.refreshTokens| =>
      if db.refreshTokens[i].id == id
      then db.refreshTokens[i].(revoked := true, replacedBy := Some(successor))
      else db.refreshTokens[i]);
    db.(refreshTokens := ts)
  }

  /** Logout's `refreshToken.updateMany({ where: { token, revoked: false }, data: { revoked: true } })` */
  function RevokeLive(db: Db, h: TokenHash): (r: Db)
    requires db.Valid()
    ensures r.Valid() && Grows(db, r)
    ensures r == db.(refreshTokens := r.refreshTokens)
    ensures |r.refreshTokens| == |db.refreshTokens|
    ensures forall i :: 0 <= i < |db.refreshTokens| ==>
      r.refreshTokens[i] ==
        if db.refreshTokens[i].token == h && !db.refreshTokens[i].revoked
        then db.refreshTokens[i].(revoked := true)
        else db.refreshTokens[i]
  {
    var ts := seq(|db.refreshTokens|, i requires 0 <= i < |db.refreshTokens| =>
      if db.refreshTokens[i].token == h && !db.refreshTokens[i].revoked
      then db.refreshTokens[i].(revoked := true)
      else db.refreshTokens[i]);
    db.(refreshTokens := ts)
  }

  /** `allowedRedirectUrl.delete({ where: { id } })` */
  function DeleteOrigin(db: Db, id: Id): (r: Db)
    requires db.Valid()
    ensures r.Valid() && Grows(db, r)
    ensures r == db.(origins := r.origins)
    ensures forall o :: o in r.origins <==> o in db.origins && o.id != id
    // ids are unique, so at most one row goes
    ensures (exists o :: o in db.origins && o.id == id) ==> |r.origins| == |db.origins| - 1
    ensures (forall o :: o in db.origins ==> o.id != id) ==> r.origins == db.origins
  {
    var keep := (o: AllowedOrigin) => o.id != id;
    var os := Filter(db.origins, keep);
    FilterKeepsKeysDistinct(db.origins, keep, (o: AllowedOrigin) => o.id);
    FilterKeepsKeysDistinct(db.origins, keep, (o: AllowedOrigin) => (o.customerId, o.origin));
    DropsAtMostOne(db.origins, id, keep);
    db.(origins := os)
  }

  /** Removing by a unique id drops one row when the id is present. */
  lemma {:induction false} DropsAtMostOne(os: seq<AllowedOrigin>, id: Id, keep: AllowedOrigin -> bool)
    requires forall i, j :: 0 <= i < j < |os| ==> os[i].id != os[j].id
    requires forall o :: keep(o) <==> o.id != id
    ensures (exists o :: o in os && o.id == id) ==> |Filter(os, keep)| == |os| - 1
  {
    if x :| x in os && x.id == id {
      forall y | y in os && y != x ensures keep(y) {
        var i :| 0 <= i < |os| && os[i] == x;
        var j :| 0 <= j < |os| && os[j] == y;
        assert i != j;
      }
      FilterDropsOnlyFailing(os, keep, x);
    }
  }

  /** The user keeps its place and identity; only the hash is new. */
  lemma {:induction false} SetPasswordFindsNewHash(db: Db, id: Id, h: PasswordHash)
    requires db.Valid() && UserById(db.users, id).Some?
    ensures UserById(SetPassword(db, id, h).users, id) == Some(UserById(db.users, id).value.(password := h))
  {
    var r := SetPassword(db, id, h);
    var u := UserById(db.users, id).value;
    var i :| 0 <= i < |db.users| && db.users[i] == u;
    assert r.users[i] == u.(password := h);
    UserByIdFinds(r, r.users[i]);
  }

  /** In a valid store the lookup by pair finds the one row with that pair. */
  lemma {:induction false} MembershipOfFinds(db: Db, m: Membership)
    requires db.Valid() && m in db.memberships
    ensures MembershipOf(db.memberships, m.userId, m.customerId) == Some(m)
  {
    var r := MembershipOf(db.memberships, m.userId, m.customerId);
    var i :| 0 <= i < |db.memberships| && db.memberships[i] == m;
    var j :| 0 <= j < |db.memberships| && db.memberships[j] == r.value;
    assert SamePair(db.memberships[i], db.memberships[j]);
  }

  /** In a valid store the lookup by id finds the one user with that id. */
  lemma {:induction false} UserByIdFinds(db: Db, u: User)
    requires db.Valid() && u in db.users
    ensures UserById(db.users, u.id) == Some(u)
  {
    var r := UserById(db.users, u.id);
    var i :| 0 <= i < |db.users| && db.users[i] == u;
    var j :| 0 <= j < |db.users| && db.users[j] == r.value;
    assert db.users[i].id == db.users[j].id;
  }
}
