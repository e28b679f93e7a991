/**
 * The per-tenant pre-token handler: its tenant is fixed by the function's
 * `TENANT_ID` setting, passed here as a parameter.
 */
module LambdaPreToken {
  import opened PreTokenEvent

  /**
   * `HandleRequest`: with no tenant configured the event is returned untouched;
   * otherwise both tokens carry the configured tenant.
   */
  method HandleRequest(event: PreTokenEvent, tenantId: string) returns (out: PreTokenEvent)
    modifies event.idTokenClaims, event.accessTokenClaims
    ensures tenantId == "" ==>
      && out == event
      && EntriesOf(event.idTokenClaims) == old(EntriesOf(event.idTokenClaims))
      && EntriesOf(event.accessTokenClaims) == old(EntriesOf(event.accessTokenClaims))
    ensures tenantId != "" ==>
      && out.userName == event.userName && out.userPoolId == event.userPoolId
      && out.idTokenClaims != null && out.accessTokenClaims != null
      && (event.idTokenClaims != null ==> out.idTokenClaims == event.idTokenClaims)
      && (event.accessTokenClaims != null ==> out.accessTokenClaims == event.accessTokenClaims)
      && out.idTokenClaims.entries ==
           WithTenantClaim(old(EntriesOf(event.idTokenClaims)), tenantId)
      && out.accessTokenClaims.entries ==
           WithTenantClaim(old(EntriesOf(event.accessTokenClaims)), tenantId)
  {
    if tenantId == "" {
      return event;
    }
    out := AddTenantClaim(event, tenantId);
  }
}
