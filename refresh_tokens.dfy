/**
  The long-lived session: `Rotate` (refresh-token route) trades a live,
  unexpired refresh token of a still-linked user for a new access token and
  a successor refresh token, revoking the presented row in the same
  transaction; `Logout` revokes every live row with the presented digest and
  always clears the cookie.
*/
module RefreshTokens {
  import opened Wrappers
  import opened Capabilities
  import opened Durable
  import opened Ephemeral
  import opened Http
  import opened Stores
  import opened Handoff

  const NO_TOKEN := "No refresh token provided"
  const REVOKED := "Invalid or revoked refresh token"
  const EXPIRED := "Refresh token has expired. Please log in again."
  const UNLINKED := "User is no longer associated with this customer"
  const ACCESS_TTL := "1h"

  /** The live row the cookie names, if any. */
  function Presented(db: Db, jar: CookieJar): Option<RefreshToken> {
    LiveToken(db.refreshTokens, HashToken(CookieValue(jar, REFRESH_COOKIE)))
  }

  /** The presented row is live, unexpired (the instant of expiry still passes) and its user still linked. */
  predicate Rotatable(db: Db, jar: CookieJar, now: int) {
    && Present(CookieValue(jar, REFRESH_COOKIE))
    && Presented(db, jar).Some?
    && !(Presented(db, jar).value.expiresAt < now)
    && MembershipOf(db.memberships, Presented(db, jar).value.userId, Presented(db, jar).value.customerId).Some?
  }

  /** The `$transaction`: create the successor, then revoke the presented row pointing at it. */
  function RotateTx(db: Db, t: RefreshToken, draws: Draws, now: int): (r: Option<Db>)
    requires db.Valid() && t in db.refreshTokens
    ensures r.Some? ==> r.value.Valid() && Grows(db, r.value)
    ensures r.Some? ==> MintsOnly(db, r.value, HashToken(draws.refreshValue))
    ensures r.Some? <==> InsertRefreshToken(db, NewRefreshToken(draws, t.userId, t.customerId, now)).Some?
    // exactly one row is added and exactly the presented row is revoked
    ensures r.Some? ==>
      && r.value == db.(refreshTokens := r.value.refreshTokens)
      && |r.value.refreshTokens| == |db.refreshTokens| + 1
      && r.value.refreshTokens[|db.refreshTokens|] == NewRefreshToken(draws, t.userId, t.customerId, now)
      && forall i :: 0 <= i < |db.refreshTokens| ==>
           r.value.refreshTokens[i] ==
             if db.refreshTokens[i] == t
             then t.(revoked := true, replacedBy := Some(HashToken(draws.refreshValue)))
             else db.refreshTokens[i]
  {
    match InsertRefreshToken(db, NewRefreshToken(draws, t.userId, t.customerId, now))
    case None => None
    case Some(db1) =>
      var db2 := RevokeRow(db1, t.id, HashToken(draws.refreshValue));
      RevokesOnlyPresented(db, db1, t, NewRefreshToken(draws, t.userId, t.customerId, now), HashToken(draws.refreshValue));
      GrowsTransitive(db, db1, db2);
      Some(db2)
  }

  /** Revoking by id after the insert touches the presented row and no other, the new one included. */
  lemma {:induction false} RevokesOnlyPresented(db: Db, db1: Db, t: RefreshToken, minted: RefreshToken, h: TokenHash)
    requires db.Valid() && db1.Valid() && t in db.refreshTokens
    requires db1 == db.(refreshTokens := db.refreshTokens + [minted])
    ensures var db2 := RevokeRow(db1, t.id, h);
      && db2 == db.(refreshTokens := db2.refreshTokens)
      && |db2.refreshTokens| == |db.refreshTokens| + 1
      && db2.refreshTokens[|db.refreshTokens|] == minted
      && forall i :: 0 <= i < |db.refreshTokens| ==>
           db2.refreshTokens[i] ==
             if db.refreshTokens[i] == t
             then t.(revoked := true, replacedBy := Some(h))
             else db.refreshTokens[i]
  {
    var db2 := RevokeRow(db1, t.id, h);
    var n := |db.refreshTokens|;
    var k :| 0 <= k < n && db.refreshTokens[k] == t;
    assert db1.refreshTokens[k] == t && db1.refreshTokens[n] == minted;
    assert minted.id != t.id;
    forall i | 0 <= i < n
      ensures db2.refreshTokens[i] ==
        if db.refreshTokens[i] == t then t.(revoked := true, replacedBy := Some(h)) else db.refreshTokens[i]
    {
      assert db1.refreshTokens[i] == db.refreshTokens[i];
      if i != k {
        assert db.refreshTokens[i].id != t.id;
      }
    }
  }

  /** The access-token claims: the user's email and the role of the current membership. */
  function Claims(db: Db, t: RefreshToken, m: Membership): (c: AccessClaims)
    requires db.Valid() && t in db.refreshTokens
    // the token speaks for the row's user and tenant, under the role the membership has now
    ensures c.sub == t.userId && c.customerId == t.customerId && c.role == RoleName(m.role)
    ensures exists u :: u in db.users && u.id == t.userId && u.email == c.email
  {
    assert t.userId in UserIds(db.users);
    AccessClaims(t.userId, UserById(db.users, t.userId).value.email, t.customerId, RoleName(m.role))
  }

  /** The body of a successful rotation: a one-hour access token and the account it is for. */
  function Refreshed(claims: AccessClaims, env: Env): Body {
    TokenRefreshed(env.signAccess(claims, ACCESS_TTL),
                   UserSummary(claims.sub, claims.email, claims.customerId, claims.role))
  }

  function Rotate(s: State, jar: CookieJar, env: Env, draws: Draws, now: int): (r: Outcome)
    requires s.Valid()
    ensures r.state.Valid() && Extends(s, r.state) && Mints(s, r.state, HashToken(draws.refreshValue))
    // only refresh-token rows change; the ephemeral store is not used
    ensures r.state == State(s.db.(refreshTokens := r.state.db.refreshTokens), s.cache)
    ensures !Present(CookieValue(jar, REFRESH_COOKIE)) ==> r.response == Failure(401, NO_TOKEN)
    ensures Present(CookieValue(jar, REFRESH_COOKIE)) && Presented(s.db, jar).None? ==>
      r.response == Failure(401, REVOKED)
    ensures (Present(CookieValue(jar, REFRESH_COOKIE)) && Presented(s.db, jar).Some?
             && Presented(s.db, jar).value.expiresAt < now) ==>
      r.response == Failure(401, EXPIRED)
    ensures (Present(CookieValue(jar, REFRESH_COOKIE)) && Presented(s.db, jar).Some?
             && !(Presented(s.db, jar).value.expiresAt < now)
             && MembershipOf(s.db.memberships, Presented(s.db, jar).value.userId,
                             Presented(s.db, jar).value.customerId).None?) ==>
      r.response == Failure(403, UNLINKED)
    ensures r.response.status == 200 <==>
      Rotatable(s.db, jar, now)
      && RotateTx(s.db, Presented(s.db, jar).value, draws, now).Some?
    ensures r.response.status != 200 ==> r.state == s
    ensures Rotatable(s.db, jar, now) && RotateTx(s.db, Presented(s.db, jar).value, draws, now).None? ==>
      r.response == Failure(500, INTERNAL_ERROR)
    // success: the transaction's store, an access token under the current role, the new cookie
    ensures r.response.status == 200 ==>
      var t := Presented(s.db, jar).value;
      var m := MembershipOf(s.db.memberships, t.userId, t.customerId).value;
      && r.state.db == RotateTx(s.db, t, draws, now).value
      && r.response == Response(200, Refreshed(Claims(s.db, t, m), env),
                                [RefreshCookie(draws.refreshValue, THIRTY_DAYS_S, env)])
  {
    var value := CookieValue(jar, REFRESH_COOKIE);
    if !Present(value) then Reject(s, 401, NO_TOKEN)
    else match Presented(s.db, jar)
      case None => Reject(s, 401, REVOKED)
      case Some(t) =>
        if t.expiresAt < now then Reject(s, 401, EXPIRED)
        else match MembershipOf(s.db.memberships, t.userId, t.customerId)
          case None => Reject(s, 403, UNLINKED)
          case Some(m) =>
            assert Rotatable(s.db, jar, now) && t == Presented(s.db, jar).value;
            Reissue(s, t, m, env, draws, now)
  }

  /** The transaction and the answer, for a live, unexpired and still-linked row. */
  function Reissue(s: State, t: RefreshToken, m: Membership, env: Env, draws: Draws, now: int): (r: Outcome)
    requires s.Valid() && t in s.db.refreshTokens
    ensures r.state.Valid() && Extends(s, r.state) && Mints(s, r.state, HashToken(draws.refreshValue))
    ensures r.state == State(s.db.(refreshTokens := r.state.db.refreshTokens), s.cache)
    ensures r.response.status == 200 <==> RotateTx(s.db, t, draws, now).Some?
    ensures r.response.status != 200 ==> r == Outcome(Failure(500, INTERNAL_ERROR), s)
    ensures r.response.status == 200 ==>
      && r.state.db == RotateTx(s.db, t, draws, now).value
      && r.response == Response(200, Refreshed(Claims(s.db, t, m), env),
                                [RefreshCookie(draws.refreshValue, THIRTY_DAYS_S, env)])
  {
    match RotateTx(s.db, t, draws, now)
    case None => Reject(s, 500, INTERNAL_ERROR)
    case Some(db1) =>
      Outcome(Response(200, Refreshed(Claims(s.db, t, m), env),
                       [RefreshCookie(draws.refreshValue, THIRTY_DAYS_S, env)]),
              Commit(s, db1))
  }

  /**
    After a rotation the old value no longer works, provided it named only
    the one live row and the fresh value differs from it.
  */
  lemma {:induction false} RotatedValueIsDead(s: State, jar: CookieJar, env: Env, draws: Draws, now: int,
                                              env': Env, draws': Draws, now': int)
    requires s.Valid() && Rotate(s, jar, env, draws, now).response.status == 200
    requires forall t :: t in s.db.refreshTokens && t.token == HashToken(CookieValue(jar, REFRESH_COOKIE)) && !t.revoked ==>
               t == Presented(s.db, jar).value
    requires draws.refreshValue != CookieValue(jar, REFRESH_COOKIE)
    ensures Rotate(Rotate(s, jar, env, draws, now).state, jar, env', draws', now').response == Failure(401, REVOKED)
  {
    var t := Presented(s.db, jar).value;
    var s1 := Rotate(s, jar, env, draws, now).state;
    assert s1.db == RotateTx(s.db, t, draws, now).value;
    RotationRevokes(s.db, t, draws, now);
  }

  /** The transaction leaves no live row with the presented digest, when that digest named one row. */
  lemma {:induction false} RotationRevokes(db: Db, t: RefreshToken, draws: Draws, now: int)
    requires db.Valid() && t in db.refreshTokens && !t.revoked
    requires RotateTx(db, t, draws, now).Some?
    requires forall x :: x in db.refreshTokens && x.token == t.token && !x.revoked ==> x == t
    requires HashToken(draws.refreshValue) != t.token
    ensures LiveToken(RotateTx(db, t, draws, now).value.refreshTokens, t.token).None?
  {
    var ts := RotateTx(db, t, draws, now).value.refreshTokens;
    forall x | x in ts
      ensures !(x.token == t.token && !x.revoked)
    {
      var i :| 0 <= i < |ts| && ts[i] == x;
      if i < |db.refreshTokens| {
        var y := db.refreshTokens[i];
        if y.token == t.token && !y.revoked {
          assert y == t;
        }
      }
    }
  }

  /** The successor hands the session on: rotating with the new cookie works while the user stays linked. */
  lemma {:induction false} SuccessorIsLive(s: State, jar: CookieJar, env: Env, draws: Draws, now: int)
    requires s.Valid() && Rotate(s, jar, env, draws, now).response.status == 200
    ensures var s1 := Rotate(s, jar, env, draws, now).state;
      Presented(s1.db, map[REFRESH_COOKIE := draws.refreshValue]).Some?
  {
    var s1 := Rotate(s, jar, env, draws, now).state;
    assert s1.db.refreshTokens[|s.db.refreshTokens|].token == HashToken(draws.refreshValue);
  }

  function Logout(s: State, jar: CookieJar, env: Env): (r: Outcome)
    requires s.Valid()
    ensures r.state.Valid() && Extends(s, r.state)
    // never fails, and always clears the cookie
    ensures r.response == Response(200, LoggedOut, [RefreshCookie("", 0, env)])
    ensures r.state.cache == s.cache
    ensures !Present(CookieValue(jar, REFRESH_COOKIE)) ==> r.state == s
    // with a cookie: the live rows with its digest are revoked, nothing else changes
    ensures Present(CookieValue(jar, REFRESH_COOKIE)) ==>
      r.state.db == RevokeLive(s.db, HashToken(CookieValue(jar, REFRESH_COOKIE)))
    // afterwards the cookie's value names no live row
    ensures Present(CookieValue(jar, REFRESH_COOKIE)) ==> Presented(r.state.db, jar).None?
  {
    var value := CookieValue(jar, REFRESH_COOKIE);
    var db1 := if Present(value) then RevokeLive(s.db, HashToken(value)) else s.db;
    assert Present(value) ==> forall i :: 0 <= i < |db1.refreshTokens| ==>
      !(db1.refreshTokens[i].token == HashToken(value) && !db1.refreshTokens[i].revoked);
    Outcome(Response(200, LoggedOut, [RefreshCookie("", 0, env)]), State(db1, s.cache))
  }

  /** An unknown or already revoked value changes nothing. */
  lemma {:induction false} LogoutOfDeadValueChangesNothing(s: State, jar: CookieJar, env: Env)
    requires s.Valid() && Presented(s.db, jar).None?
    ensures Logout(s, jar, env).state == s
  {
    var s1 := Logout(s, jar, env).state;
    assert s1.db.refreshTokens == s.db.refreshTokens;
  }

  /** Logging out twice is logging out once. */
  lemma {:induction false} LogoutIdempotent(s: State, jar: CookieJar, env: Env)
    requires s.Valid()
    ensures Logout(Logout(s, jar, env).state, jar, env) == Logout(s, jar, env)
  {
    var s1 := Logout(s, jar, env).state;
    var s2 := Logout(s1, jar, env).state;
    assert s2.db.refreshTokens == s1.db.refreshTokens;
  }
}
