/**
 * The shared pre-token handler: it looks the user pool up in the tenant
 * mapping table and, when the mapping names a tenant, stamps that tenant on
 * both tokens. Every failure leaves the event as it came and still succeeds.
 */
module CognitoPreToken {
  import opened Wrappers
  import opened PreTokenEvent

  /** A DynamoDB attribute value; only the string member matters here. */
  datatype AttributeValue = AttrS(s: string) | AttrOther

  /**
   * `GetItem` on the mapping table keyed by `pool_id`: an error, no item (a nil
   * `Item`), or the item's attributes.
   */
  type GetItem = string -> Result<Option<map<string, AttributeValue>>, string>

  const TenantAttribute: string := "tenant_id"

  /**
   * The tenant a lookup result names: present only for an item whose
   * `tenant_id` is a non-empty string attribute.
   */
  function TenantFromLookup(result: Result<Option<map<string, AttributeValue>>, string>): (r: Option<string>)
    ensures r.Some? <==>
      && result.Ok? && result.value.Some?
      && TenantAttribute in result.value.value
      && result.value.value[TenantAttribute].AttrS?
      && result.value.value[TenantAttribute].s != ""
    ensures r.Some? ==> result.value.value[TenantAttribute] == AttrS(r.value)
  {
    match result
    case Err(_) => None
    case Ok(None) => None
    case Ok(Some(item)) =>
      if TenantAttribute !in item then None
      else match item[TenantAttribute]
        case AttrS(s) => if s == "" then None else Some(s)
        case AttrOther => None
  }

  /**
   * `HandleRequest`: the pool's mapping is read once; without a usable tenant
   * nothing is touched and the event is returned unchanged, otherwise both
   * tokens carry that tenant.
   */
  method HandleRequest(event: PreTokenEvent, getItem: GetItem) returns (out: PreTokenEvent)
    modifies event.idTokenClaims, event.accessTokenClaims
    ensures TenantFromLookup(getItem(event.userPoolId)).None? ==>
      && out == event
      && EntriesOf(event.idTokenClaims) == old(EntriesOf(event.idTokenClaims))
      && EntriesOf(event.accessTokenClaims) == old(EntriesOf(event.accessTokenClaims))
    ensures TenantFromLookup(getItem(event.userPoolId)).Some? ==>
      var tenantId := TenantFromLookup(getItem(event.userPoolId)).value;
      && out.userName == event.userName && out.userPoolId == event.userPoolId
      && out.idTokenClaims != null && out.accessTokenClaims != null
      && (event.idTokenClaims != null ==> out.idTokenClaims == event.idTokenClaims)
      && (event.accessTokenClaims != null ==> out.accessTokenClaims == event.accessTokenClaims)
      && out.idTokenClaims.entries ==
           WithTenantClaim(old(EntriesOf(event.idTokenClaims)), tenantId)
      && out.accessTokenClaims.entries ==
           WithTenantClaim(old(EntriesOf(event.accessTokenClaims)), tenantId)
  {
    var tenant := TenantFromLookup(getItem(event.userPoolId));
    if tenant.None? {
      return event;
    }
    out := AddTenantClaim(event, tenant.value);
  }
}
