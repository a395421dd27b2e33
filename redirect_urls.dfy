/**
  A tenant admin's allow-list (redirect-urls route): list, add and remove
  allowed origins. Every method first passes the admin gate; the tenant is
  the one in the admin's token, so an admin only ever sees or touches the
  rows of their own tenant.
*/
module RedirectUrls {
  import opened Wrappers
  import opened Capabilities
  import opened Seqs
  import opened Durable
  import opened Ephemeral
  import opened Http
  import opened Stores
  import AdminAuth

  const URL_REQUIRED := "url is required"
  const INVALID_URL := "Invalid URL"
  const ALREADY_REGISTERED := "This origin is already registered"
  const ID_REQUIRED := "id query param is required"
  const NOT_FOUND := "Not found"

  function Admin(jar: CookieJar, env: Env): Option<AdminClaims> {
    AdminAuth.GetAdminFromCookie(jar, env.verifyAdmin)
  }

  function View(o: AllowedOrigin): OriginView {
    OriginView(o.id, o.origin, o.createdAt)
  }

  /** The tenant's rows, projected to `{ id, origin, createdAt }`, in creation order. */
  function TenantViews(os: seq<AllowedOrigin>, customerId: Id): (vs: seq<OriginView>)
    ensures |vs| <= |os|
    ensures forall v :: v in vs <==> exists o :: o in os && o.customerId == customerId && v == View(o)
  {
    if os == [] then []
    else (if os[0].customerId == customerId then [View(os[0])] else []) + TenantViews(os[1..], customerId)
  }

  /** Order and multiplicity: a new row joins the end of its own tenant's listing only. */
  lemma {:induction false} TenantViewsAppend(os: seq<AllowedOrigin>, o: AllowedOrigin, customerId: Id)
    ensures TenantViews(os + [o], customerId)
         == TenantViews(os, customerId) + (if o.customerId == customerId then [View(o)] else [])
  {
    if os == [] {
      assert [o][1..] == [];
    } else {
      assert (os + [o])[1..] == os[1..] + [o];
      TenantViewsAppend(os[1..], o, customerId);
    }
  }

  /** GET: reads only. */
  function List(s: State, jar: CookieJar, env: Env): (r: Response)
    ensures Admin(jar, env).None? ==> r == Failure(401, UNAUTHORIZED)
    ensures Admin(jar, env).Some? ==>
      r == Response(200, OriginList(TenantViews(s.db.origins, Admin(jar, env).value.customerId)), [])
  {
    match Admin(jar, env)
    case None => Failure(401, UNAUTHORIZED)
    case Some(admin) => Response(200, OriginList(TenantViews(s.db.origins, admin.customerId)), [])
  }

  /** Tenant isolation of the listing: another tenant's row never shows, whatever it holds. */
  lemma {:induction false} ListShowsOnlyOwnTenant(s: State, jar: CookieJar, env: Env, o: AllowedOrigin)
    requires Admin(jar, env).Some? && o in s.db.origins && o.customerId != Admin(jar, env).value.customerId
    requires forall x :: x in s.db.origins && x.id == o.id ==> x == o
    ensures forall v :: v in List(s, jar, env).body.urls ==> v.id != o.id
  {
  }

  /** The row a successful POST stores: only the URL's origin, bound to the admin's tenant. */
  function NewOrigin(admin: AdminClaims, origin: string, draws: Draws, now: int): AllowedOrigin {
    AllowedOrigin(draws.rowId, admin.customerId, origin, now)
  }

  /** POST */
  function Add(s: State, jar: CookieJar, url: string, env: Env, draws: Draws, now: int): (r: Outcome)
    requires s.Valid()
    ensures r.state.Valid() && Extends(s, r.state)
    ensures r.state == State(s.db.(origins := r.state.db.origins), s.cache)
    ensures Admin(jar, env).None? ==> r.response == Failure(401, UNAUTHORIZED)
    ensures Admin(jar, env).Some? && !Present(url) ==> r.response == Failure(400, URL_REQUIRED)
    ensures Admin(jar, env).Some? && Present(url) && env.originOf(url).None? ==>
      r.response == Failure(400, INVALID_URL)
    // any rejected create, a duplicate (tenant, origin) among them, is reported as 409
    ensures (Admin(jar, env).Some? && Present(url) && env.originOf(url).Some?
             && InsertOrigin(s.db, NewOrigin(Admin(jar, env).value, env.originOf(url).value, draws, now)).None?) ==>
      r.response == Failure(409, ALREADY_REGISTERED)
    ensures (Admin(jar, env).Some? && Present(url) && env.originOf(url).Some?
             && OriginRow(s.db.origins, Admin(jar, env).value.customerId, env.originOf(url).value).Some?) ==>
      r.response == Failure(409, ALREADY_REGISTERED)
    ensures r.response.status != 201 ==> r.state == s
    // created exactly when an admin sent a parseable URL and the insert was accepted
    ensures r.response.status == 201 <==>
      && Admin(jar, env).Some? && Present(url) && env.originOf(url).Some?
      && InsertOrigin(s.db, NewOrigin(Admin(jar, env).value, env.originOf(url).value, draws, now)).Some?
    ensures r.response.status == 201 ==>
      var o := NewOrigin(Admin(jar, env).value, env.originOf(url).value, draws, now);
      && r.state.db.origins == s.db.origins + [o]
      && r.response == Response(201, OriginCreated(View(o)), [])
  {
    match Admin(jar, env)
    case None => Reject(s, 401, UNAUTHORIZED)
    case Some(admin) =>
      if !Present(url) then Reject(s, 400, URL_REQUIRED)
      else match env.originOf(url)
        case None => Reject(s, 400, INVALID_URL)
        case Some(origin) =>
          var o := NewOrigin(admin, origin, draws, now);
          match InsertOrigin(s.db, o)
          case None => Reject(s, 409, ALREADY_REGISTERED)
          case Some(db1) => Outcome(Response(201, OriginCreated(View(o)), []), State(db1, s.cache))
  }

  /** DELETE */
  function Remove(s: State, jar: CookieJar, id: Id, env: Env): (r: Outcome)
    requires s.Valid()
    ensures r.state.Valid() && Extends(s, r.state)
    ensures r.state == State(s.db.(origins := r.state.db.origins), s.cache)
    ensures Admin(jar, env).None? ==> r.response == Failure(401, UNAUTHORIZED)
    ensures Admin(jar, env).Some? && !Present(id) ==> r.response == Failure(400, ID_REQUIRED)
    // a row of another tenant is as good as missing
    ensures (Admin(jar, env).Some? && Present(id)
             && OwnedOrigin(s.db.origins, id, Admin(jar, env).value.customerId).None?) ==>
      r.response == Failure(404, NOT_FOUND)
    ensures r.response.status == 200 <==>
      Admin(jar, env).Some? && Present(id) && OwnedOrigin(s.db.origins, id, Admin(jar, env).value.customerId).Some?
    ensures r.response.status != 200 ==> r.state == s
    // success removes exactly the one row with this id, which belonged to the admin's tenant
    ensures r.response.status == 200 ==>
      && r.response == Response(200, OriginRemoved, [])
      && |r.state.db.origins| == |s.db.origins| - 1
      && forall o :: o in r.state.db.origins <==> o in s.db.origins && o.id != id
  {
    match Admin(jar, env)
    case None => Reject(s, 401, UNAUTHORIZED)
    case Some(admin) =>
      if !Present(id) then Reject(s, 400, ID_REQUIRED)
      else match OwnedOrigin(s.db.origins, id, admin.customerId)
        case None => Reject(s, 404, NOT_FOUND)
        case Some(_) => Outcome(Response(200, OriginRemoved, []), State(DeleteOrigin(s.db, id), s.cache))
  }

  /** Removing and listing: the removed origin is no longer offered to the gate. */
  lemma {:induction false} RemovedOriginNoLongerListed(s: State, jar: CookieJar, id: Id, env: Env)
    requires s.Valid() && Remove(s, jar, id, env).response.status == 200
    ensures forall v :: v in List(Remove(s, jar, id, env).state, jar, env).body.urls ==> v.id != id
  {
  }
}
