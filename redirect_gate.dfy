/**
  The redirect-origin gate (`validateRedirectUrl`): a return URL is allowed
  for a tenant when its origin is on that tenant's allow-list. A URL that
  does not parse fails closed. The gate only reads the store.
*/
module RedirectGate {
  import opened Wrappers
  import opened Capabilities
  import opened Durable

  function ValidateRedirectUrl(
    origins: seq<AllowedOrigin>, originOf: string -> Option<string>,
    customerId: Id, redirectUrl: string): (ok: bool)
    ensures ok <==>
      && originOf(redirectUrl).Some?
      && exists o :: o in origins && o.customerId == customerId && o.origin == originOf(redirectUrl).value
    ensures originOf(redirectUrl).None? ==> !ok
  {
    match originOf(redirectUrl)
    case None => false
    case Some(origin) => OriginRow(origins, customerId, origin).Some?
  }

  /** Path and query are ignored: URLs with one origin get one answer. */
  lemma SameOriginSameAnswer(
    origins: seq<AllowedOrigin>, originOf: string -> Option<string>,
    customerId: Id, url1: string, url2: string)
    requires originOf(url1) == originOf(url2)
    ensures ValidateRedirectUrl(origins, originOf, customerId, url1)
         == ValidateRedirectUrl(origins, originOf, customerId, url2)
  {
  }

  /** Tenant isolation: an origin allowed only for other tenants is rejected. */
  lemma OtherTenantsOriginRejected(
    origins: seq<AllowedOrigin>, originOf: string -> Option<string>,
    customerId: Id, url: string)
    requires originOf(url).Some?
    requires forall o :: o in origins && o.origin == originOf(url).value ==> o.customerId != customerId
    ensures !ValidateRedirectUrl(origins, originOf, customerId, url)
  {
  }
}
