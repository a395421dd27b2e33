/**
  The tenant back end redeems an `authId` for a one-hour access token
  (token route). The entry is consumed on success, so a code works once.
  The request's `customerId` must be present but is never compared with
  the tenant the code was issued for.
*/
module CodeExchange {
  import opened Wrappers
  import opened Capabilities
  import opened Durable
  import opened Ephemeral
  import opened Http
  import opened Stores
  import Handoff

  datatype ExchangeRequest = ExchangeRequest(customerId: Id, authId: string)

  const INVALID_AUTH_ID := "Invalid or expired authId"
  const ACCESS_TTL := "1h"

  /** The claims signed for a redeemed code, copied from the staged user, id under `sub`. */
  function ClaimsOf(u: StagedUser): (c: AccessClaims)
    ensures c.sub == u.id && c.email == u.email && c.customerId == u.customerId
    ensures c.role == "admin" <==> u.role == AdminRole
  {
    AccessClaims(u.id, u.email, u.customerId, RoleName(u.role))
  }

  function Redeem(s: State, req: ExchangeRequest, env: Env): (r: Outcome)
    requires s.Valid()
    ensures r.state.Valid() && Extends(s, r.state)
    ensures r.state.db == s.db
    ensures !Present(req.customerId) || !Present(req.authId) ==>
      r.response == Failure(400, ALL_FIELDS) && r.state == s
    ensures (Present(req.customerId) && Present(req.authId) && AuthIdKey(req.authId) !in s.cache) ==>
      r.response == Failure(401, INVALID_AUTH_ID) && r.state == s
    ensures r.response.status == 200 <==>
      Present(req.customerId) && Present(req.authId) && AuthIdKey(req.authId) in s.cache
    // success consumes exactly this code and signs the staged identity for one hour
    ensures r.response.status == 200 ==>
      var u := s.cache[AuthIdKey(req.authId)].payload.user;
      && r.state.cache == s.cache - {AuthIdKey(req.authId)}
      && r.response == Response(200, TokenIssued(env.signAccess(ClaimsOf(u), ACCESS_TTL), ClaimsOf(u)), [])
  {
    if !Present(req.customerId) || !Present(req.authId) then Reject(s, 400, ALL_FIELDS)
    else if AuthIdKey(req.authId) !in s.cache then Reject(s, 401, INVALID_AUTH_ID)
    else
      var claims := ClaimsOf(s.cache[AuthIdKey(req.authId)].payload.user);
      Outcome(Response(200, TokenIssued(env.signAccess(claims, ACCESS_TTL), claims), []),
              Consume(s, AuthIdKey(req.authId)))
  }

  /** A redeemed code cannot be redeemed again. */
  lemma {:induction false} RedeemSingleUse(s: State, req: ExchangeRequest, req': ExchangeRequest, env: Env)
    requires s.Valid() && Redeem(s, req, env).response.status == 200
    requires req'.authId == req.authId && Present(req'.customerId)
    ensures Redeem(Redeem(s, req, env).state, req', env).response == Failure(401, INVALID_AUTH_ID)
  {
  }

  /** Any present customerId gives the same outcome: the tenant is not checked. */
  lemma {:induction false} TenantNotChecked(s: State, authId: string, c1: Id, c2: Id, env: Env)
    requires s.Valid() && Present(c1) && Present(c2)
    ensures Redeem(s, ExchangeRequest(c1, authId), env) == Redeem(s, ExchangeRequest(c2, authId), env)
  {
  }

  /** End to end: the code a completed handshake hands off redeems to the claims of the user it staged. */
  lemma {:induction false} HandoffRedeems(s: State, user: StagedUser, redirectUrl: string, status: int,
                                          env: Env, draws: Draws, now: int, customerId: Id)
    requires s.Valid() && status != 500 && Present(customerId) && Present(draws.authId)
    requires Handoff.IssueSession(s, user, redirectUrl, status, env, draws, now).response.status == status
    ensures var r := Redeem(Handoff.IssueSession(s, user, redirectUrl, status, env, draws, now).state,
                            ExchangeRequest(customerId, draws.authId), env);
      && r.response.status == 200
      && r.response.body == TokenIssued(env.signAccess(ClaimsOf(user), ACCESS_TTL), ClaimsOf(user))
      && r.response.body.user.sub == user.id
  {
  }
}
