/**
  The hand-off shared by the two end-user completions (2fa/setup and
  2fa/verify) once the pending entry is consumed: a refresh token stored by
  its digest (outside any transaction), a single-use `auth_id` entry for the
  tenant's back end, and the refresh cookie carrying the unhashed value.
*/
module Handoff {
  import opened Wrappers
  import opened Capabilities
  import opened Durable
  import opened Ephemeral
  import opened Http
  import opened Stores

  /** The refresh-token row issued for a session of `userId` at `customerId`: 30 days, live. */
  function NewRefreshToken(draws: Draws, userId: Id, customerId: Id, now: int): RefreshToken {
    RefreshToken(draws.rowId, HashToken(draws.refreshValue), userId, customerId,
                 now + THIRTY_DAYS_MS, false, None)
  }

  /** What a completion stages under `auth_id:<authId>`. */
  function ExchangeEntry(draws: Draws, user: StagedUser): (e: Entry)
    ensures Matches(AuthIdKey(draws.authId), e.payload)
  {
    Entry(ExchangePayload(draws.authId, user), EXCHANGE_TTL)
  }

  function IssueSession(s: State, user: StagedUser, redirectUrl: string, status: int,
                        env: Env, draws: Draws, now: int): (r: Outcome)
    requires s.Valid() && status != 500
    ensures r.state.Valid() && Extends(s, r.state) && Mints(s, r.state, HashToken(draws.refreshValue))
    // only the refresh-token table and the `auth_id` namespace can change
    ensures r.state.db == s.db.(refreshTokens := r.state.db.refreshTokens)
    ensures r.response.status == status <==>
      InsertRefreshToken(s.db, NewRefreshToken(draws, user.id, user.customerId, now)).Some?
    ensures r.response.status != status ==> r == Outcome(Failure(500, INTERNAL_ERROR), s)
    ensures r.response.status == status ==>
      && r.state.db.refreshTokens == s.db.refreshTokens + [NewRefreshToken(draws, user.id, user.customerId, now)]
      && r.state.cache == s.cache[AuthIdKey(draws.authId) := ExchangeEntry(draws, user)]
      && r.response == Response(status, HandshakeComplete(draws.authId, redirectUrl),
                                [RefreshCookie(draws.refreshValue, THIRTY_DAYS_S, env)])
  {
    match InsertRefreshToken(s.db, NewRefreshToken(draws, user.id, user.customerId, now))
    case None => Outcome(Failure(500, INTERNAL_ERROR), s)
    case Some(db1) =>
      Outcome(Response(status, HandshakeComplete(draws.authId, redirectUrl),
                       [RefreshCookie(draws.refreshValue, THIRTY_DAYS_S, env)]),
              Stage(s.(db := db1), AuthIdKey(draws.authId), ExchangeEntry(draws, user)))
  }

  /** The cookie and the stored row agree: the row holds the digest of the cookie's value. */
  lemma {:induction false} CookieMatchesStoredDigest(s: State, user: StagedUser, redirectUrl: string,
                                                     status: int, env: Env, draws: Draws, now: int)
    requires s.Valid() && status != 500
    requires IssueSession(s, user, redirectUrl, status, env, draws, now).response.status == status
    ensures var r := IssueSession(s, user, redirectUrl, status, env, draws, now);
      && |r.response.cookies| == 1
      && LiveToken(r.state.db.refreshTokens, HashToken(r.response.cookies[0].value)).Some?
  {
    var r := IssueSession(s, user, redirectUrl, status, env, draws, now);
    var t := NewRefreshToken(draws, user.id, user.customerId, now);
    assert r.state.db.refreshTokens[|s.db.refreshTokens|] == t;
  }
}
