/**
  The ephemeral session store (Redis): string keys in five namespaces, each
  holding a JSON payload with a time-to-live. Keys and payloads are tagged
  unions here; `KeyString` gives the Redis key a tag stands for, and
  `KeyStringInjective` shows that the namespaces cannot collide, so the
  tagged map is faithful to the flat string-keyed one.
*/
module Ephemeral {
  import opened Capabilities
  import opened Durable

  datatype Key =
    | PendingReg(tempToken: string)
    | PendingLogin(tempToken: string)
    | PendingAdminLogin(tempToken: string)
    | PendingCompanyReg(tempToken: string)
    | AuthIdKey(authId: string)

  function Prefix(k: Key): string {
    match k
    case PendingReg(_) => "pending_reg:"
    case PendingLogin(_) => "pending_login:"
    case PendingAdminLogin(_) => "pending_admin_login:"
    case PendingCompanyReg(_) => "pending_company_reg:"
    case AuthIdKey(_) => "auth_id:"
  }

  function Suffix(k: Key): string {
    match k
    case AuthIdKey(a) => a
    case _ => k.tempToken
  }

  /** The Redis key, e.g. `pending_reg:${tempToken}`. */
  function KeyString(k: Key): string {
    Prefix(k) + Suffix(k)
  }

  /** Distinct tags or distinct tokens always give distinct Redis keys. */
  lemma {:induction false} KeyStringInjective(a: Key, b: Key)
    ensures KeyString(a) == KeyString(b) <==> a == b
  {
    if KeyString(a) == KeyString(b) {
      var pa, pb := Prefix(a), Prefix(b);
      assert KeyString(a)[0] == pa[0] && KeyString(b)[0] == pb[0];
      if pa[0] == pb[0] && !a.AuthIdKey? {
        // every other prefix is "pending_" followed by a distinct letter
        assert KeyString(a)[8] == pa[8] && KeyString(b)[8] == pb[8];
      }
      assert pa == pb;
      assert Suffix(a) == KeyString(a)[|pa|..] == KeyString(b)[|pb|..] == Suffix(b);
    }
  }

  /** The user fields staged with an exchange code. */
  datatype StagedUser = StagedUser(id: Id, email: string, customerId: Id, role: Role)

  datatype Payload =
    | RegistrationPayload(email: string, hashedPassword: PasswordHash, customerId: Id,
                          totpSecret: Secret, redirectUrl: string)
    | LoginPayload(userId: Id, email: string, customerId: Id, role: Role,
                   totpSecret: Secret, redirectUrl: string)
    | AdminLoginPayload(userId: Id, email: string, customerId: Id, role: Role, totpSecret: Secret)
    | CompanyPayload(companyName: string, email: string, hashedPassword: PasswordHash,
                     totpSecret: Secret)
    | ExchangePayload(authId: string, user: StagedUser)

  /** A stored value with the `EX` seconds it was set with. */
  datatype Entry = Entry(payload: Payload, ttl: nat)

  type Cache = map<Key, Entry>

  /** Each namespace holds the payload shape its writer stores. */
  predicate Matches(k: Key, p: Payload) {
    match k
    case PendingReg(_) => p.RegistrationPayload?
    case PendingLogin(_) => p.LoginPayload?
    case PendingAdminLogin(_) => p.AdminLoginPayload?
    case PendingCompanyReg(_) => p.CompanyPayload?
    case AuthIdKey(a) => p.ExchangePayload? && p.authId == a
  }

  ghost predicate WellTyped(c: Cache) {
    forall k :: k in c ==> Matches(k, c[k].payload)
  }

  const REGISTRATION_TTL: nat := 600   // seconds to finish enrollment
  const LOGIN_TTL: nat := 300          // seconds to answer the TOTP challenge
  const EXCHANGE_TTL: nat := 300       // seconds to redeem an authId
}
