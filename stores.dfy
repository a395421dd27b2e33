/**
  The broker's whole state: the durable store and the ephemeral store, and
  what a route returns (its response and the stores afterwards). `Extends`
  is what no route ever undoes.
*/
module Stores {
  import opened Capabilities
  import opened Durable
  import opened Ephemeral
  import opened Http

  datatype State = State(db: Db, cache: Cache) {
    ghost predicate Valid() {
      db.Valid() && WellTyped(cache)
    }
  }

  datatype Outcome = Outcome(response: Response, state: State)

  /** A route that fails leaves both stores as they were. */
  function Reject(s: State, status: int, message: string): (r: Outcome)
    ensures r.state == s && r.response.status == status && r.response.cookies == []
  {
    Outcome(Failure(status, message), s)
  }

  /** What no route undoes (see `Durable.Grows`); the ephemeral store is unconstrained. */
  ghost predicate Extends(s: State, s': State) {
    Grows(s.db, s'.db)
  }

  /** A durable write that kept the store valid and undid nothing. */
  function Commit(s: State, db: Db): (s': State)
    requires s.Valid() && db.Valid() && Grows(s.db, db)
    ensures s'.Valid() && Extends(s, s') && s' == State(db, s.cache)
  {
    State(db, s.cache)
  }

  /** `redisClient.set(key, payload, { EX: ttl })` */
  function Stage(s: State, k: Key, e: Entry): (s': State)
    requires s.Valid() && Matches(k, e.payload)
    ensures s'.Valid() && s'.db == s.db && s'.cache == s.cache[k := e]
  {
    s.(cache := s.cache[k := e])
  }

  /** `redisClient.del(key)` */
  function Consume(s: State, k: Key): (s': State)
    requires s.Valid()
    ensures s'.Valid() && s'.db == s.db && s'.cache == s.cache - {k}
  {
    s.(cache := s.cache - {k})
  }

  /** Every refresh-token row a step adds carries the digest `h`. */
  ghost predicate Mints(s: State, s': State, h: TokenHash) {
    MintsOnly(s.db, s'.db, h)
  }
}
