/**
 * What golang-jwt's `ParseUnverified(token, &TenantClaims{})` hands back: the
 * token's claims decoded into the `TenantClaims` struct (registered claims plus
 * `tenant_id`), some other claims type, or an error. No signature is checked;
 * the parser itself is an oracle.
 */
module Jwt {
  import opened Wrappers

  datatype ParsedClaims =
    | TenantClaims(tenantId: string, subject: string)
    | OtherClaims

  type UnverifiedParser = string -> Result<ParsedClaims, string>
}

/** Tenant extraction in the shared auth package. */
module AuthJwt {
  import opened Wrappers
  import opened Strings
  import opened Jwt

  datatype JwtError =
    | ParseFailed(cause: string)
    | ErrInvalidToken
    | ErrMissingTenantID

  const BearerPrefix: string := "Bearer "

  /**
   * `ExtractTenantFromToken`: drop at most one case-sensitive "Bearer ", parse
   * without verification, and require a non-empty `tenant_id` claim.
   */
  function ExtractTenantFromToken(tokenString: string, parse: UnverifiedParser): (r: Result<string, JwtError>)
    ensures parse(TrimPrefix(tokenString, BearerPrefix)).Err? ==>
      r == Err(ParseFailed(parse(TrimPrefix(tokenString, BearerPrefix)).error))
    ensures parse(TrimPrefix(tokenString, BearerPrefix)) == Ok(OtherClaims) ==> r == Err(ErrInvalidToken)
    ensures var c := parse(TrimPrefix(tokenString, BearerPrefix));
      c.Ok? && c.value.TenantClaims? && c.value.tenantId == "" ==> r == Err(ErrMissingTenantID)
    ensures var c := parse(TrimPrefix(tokenString, BearerPrefix));
      r.Ok? <==> c.Ok? && c.value.TenantClaims? && c.value.tenantId != ""
    ensures r.Ok? ==> r.value == parse(TrimPrefix(tokenString, BearerPrefix)).value.tenantId
  {
    match parse(TrimPrefix(tokenString, BearerPrefix))
    case Err(e) => Err(ParseFailed(e))
    case Ok(OtherClaims) => Err(ErrInvalidToken)
    case Ok(TenantClaims(tenant, _)) => if tenant == "" then Err(ErrMissingTenantID) else Ok(tenant)
  }

  /** Only one "Bearer " is removed: a doubled prefix leaves the second for the parser. */
  lemma OneBearerRemoved(rest: string)
    ensures TrimPrefix(BearerPrefix + BearerPrefix + rest, BearerPrefix) == BearerPrefix + rest
  {
    assert (BearerPrefix + BearerPrefix + rest)[..|BearerPrefix|] == BearerPrefix;
    assert (BearerPrefix + BearerPrefix + rest)[|BearerPrefix|..] == BearerPrefix + rest;
  }

  /** `GetBucketNameForTenant(tenantID, bucketPrefix)`: `<prefix>-store-<tenant>`. */
  function GetBucketNameForTenant(tenantId: string, bucketPrefix: string): (name: string)
    ensures HasPrefix(name, bucketPrefix + "-store-")
    ensures HasSuffix(name, tenantId)
    ensures |name| == |bucketPrefix| + 7 + |tenantId|
  {
    var name := bucketPrefix + "-store-" + tenantId;
    assert name[..|bucketPrefix + "-store-"|] == bucketPrefix + "-store-";
    assert name[|name| - |tenantId|..] == tenantId;
    name
  }

  /** Under one prefix, different tenants get different buckets. */
  lemma BucketNamesDistinct(t1: string, t2: string, bucketPrefix: string)
    requires t1 != t2
    ensures GetBucketNameForTenant(t1, bucketPrefix) != GetBucketNameForTenant(t2, bucketPrefix)
  {
    var n1, n2 := GetBucketNameForTenant(t1, bucketPrefix), GetBucketNameForTenant(t2, bucketPrefix);
    if n1 == n2 {
      assert t1 == n1[|bucketPrefix| + 7..];
      assert t2 == n2[|bucketPrefix| + 7..];
    }
  }
}
