/**
 * The Cognito Pre Token Generation V2_0 event and the one change both
 * pre-token handlers make to it: a `tenant_id` claim in the ID token and in
 * the access token. The claim maps are Go maps, so they are references shared
 * between the event the handler receives and the one it returns.
 */
module PreTokenEvent {

  /** A claim value (`interface{}`); the handlers only ever write strings. */
  datatype ClaimValue = ClaimString(s: string) | ClaimOther

  /** A `ClaimsToAddOrOverride` map; a nil map is a null reference. */
  class ClaimMap {
    var entries: map<string, ClaimValue>

    constructor ()
      ensures entries == map[]
    {
      entries := map[];
    }
  }

  datatype PreTokenEvent = PreTokenEvent(
    userName: string,
    userPoolId: string,
    idTokenClaims: ClaimMap?,
    accessTokenClaims: ClaimMap?)

  const TenantClaim: string := "tenant_id"

  /** What a nil map reads as. */
  function EntriesOf(m: ClaimMap?): map<string, ClaimValue>
    reads m
  {
    if m == null then map[] else m.entries
  }

  /**
   * The claims after the tenant is added: `tenant_id` holds the tenant and
   * every other claim is kept as it was.
   */
  function WithTenantClaim(claims: map<string, ClaimValue>, tenantId: string): (r: map<string, ClaimValue>)
    ensures r.Keys == claims.Keys + {TenantClaim}
    ensures r[TenantClaim] == ClaimString(tenantId)
    ensures forall k :: k in claims && k != TenantClaim ==> r[k] == claims[k]
  {
    claims[TenantClaim := ClaimString(tenantId)]
  }

  /** Adding the claim twice is adding it once, so a map shared by both tokens ends up right. */
  lemma WithTenantClaimIdempotent(claims: map<string, ClaimValue>, tenantId: string)
    ensures WithTenantClaim(WithTenantClaim(claims, tenantId), tenantId) == WithTenantClaim(claims, tenantId)
  {
  }

  /** A later tenant replaces an earlier one. */
  lemma WithTenantClaimOverrides(claims: map<string, ClaimValue>, first: string, second: string)
    ensures WithTenantClaim(WithTenantClaim(claims, first), second) == WithTenantClaim(claims, second)
  {
  }

  /** Set `tenant_id` in a claim map, allocating the map when it is nil. */
  method SetTenantClaim(m: ClaimMap?, tenantId: string) returns (out: ClaimMap)
    modifies m
    ensures m != null ==> out == m
    ensures m == null ==> fresh(out)
    ensures out.entries == WithTenantClaim(old(EntriesOf(m)), tenantId)
  {
    if m == null {
      out := new ClaimMap();
    } else {
      out := m;
    }
    out.entries := out.entries[TenantClaim := ClaimString(tenantId)];
  }

  /**
   * Both tokens' override maps gain `tenant_id`; a map that existed is updated
   * in place (even when the two tokens share it), a nil one is replaced by a
   * new map, and the rest of the event is returned as received.
   */
  method AddTenantClaim(event: PreTokenEvent, tenantId: string) returns (out: PreTokenEvent)
    modifies event.idTokenClaims, event.accessTokenClaims
    ensures out.userName == event.userName && out.userPoolId == event.userPoolId
    ensures out.idTokenClaims != null && out.accessTokenClaims != null
    ensures event.idTokenClaims != null ==> out.idTokenClaims == event.idTokenClaims
    ensures event.idTokenClaims == null ==> fresh(out.idTokenClaims)
    ensures event.accessTokenClaims != null ==> out.accessTokenClaims == event.accessTokenClaims
    ensures event.accessTokenClaims == null ==> fresh(out.accessTokenClaims)
    ensures out.idTokenClaims.entries ==
      WithTenantClaim(old(EntriesOf(event.idTokenClaims)), tenantId)
    ensures out.accessTokenClaims.entries ==
      WithTenantClaim(old(EntriesOf(event.accessTokenClaims)), tenantId)
  {
    var idClaims := SetTenantClaim(event.idTokenClaims, tenantId);
    var accessClaims := SetTenantClaim(event.accessTokenClaims, tenantId);
    if idClaims == accessClaims {
      WithTenantClaimIdempotent(old(EntriesOf(event.idTokenClaims)), tenantId);
    }
    out := event.(idTokenClaims := idClaims, accessTokenClaims := accessClaims);
  }
}
