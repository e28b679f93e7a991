/**
 * The upload Lambda's credential helpers: tenant ID and token expiry carried
 * in the request context, and tenant-scoped role assumption with a
 * caller-chosen duration.
 */
module LambdaCredentials {
  import opened Wrappers
  import opened GoContext
  import opened Sts

  /** `ContextTenantKey`, of the package's own `TenantInfo` type. */
  const TenantKey: Key := Key("main.TenantInfo", "tenant_id")

  /** `ContextTokenExpirationKey`, of the package's own `TokenExpiration` type. */
  const ExpirationKey: Key := Key("main.TokenExpiration", "token_expiration")

  function WithTenantID(ctx: Context, tenantId: string): Context {
    WithValue(ctx, TenantKey, StringValue(tenantId))
  }

  function GetTenantID(ctx: Context): (r: (string, bool))
    ensures Lookup(ctx, TenantKey).None? ==> r == ("", false)
  {
    StringAt(ctx, TenantKey)
  }

  /** The expiry is a Unix time in seconds. */
  function WithTokenExpiration(ctx: Context, expiration: int): Context {
    WithValue(ctx, ExpirationKey, Int64Value(expiration))
  }

  function GetTokenExpiration(ctx: Context): (r: (int, bool))
    ensures Lookup(ctx, ExpirationKey).None? ==> r == (0, false)
  {
    Int64At(ctx, ExpirationKey)
  }

  /** A tenant stored in the context is read back unchanged. */
  lemma TenantRoundTrip(ctx: Context, tenantId: string)
    ensures GetTenantID(WithTenantID(ctx, tenantId)) == (tenantId, true)
  {
  }

  /** An expiry stored in the context is read back unchanged. */
  lemma ExpirationRoundTrip(ctx: Context, expiration: int)
    ensures GetTokenExpiration(WithTokenExpiration(ctx, expiration)) == (expiration, true)
  {
  }

  /** The two keys have distinct types, so setting one never disturbs the other. */
  lemma KeysIndependent(ctx: Context, tenantId: string, expiration: int)
    ensures GetTokenExpiration(WithTenantID(ctx, tenantId)) == GetTokenExpiration(ctx)
    ensures GetTenantID(WithTokenExpiration(ctx, expiration)) == GetTenantID(ctx)
  {
    LookupOther(ctx, TenantKey, StringValue(tenantId), ExpirationKey);
    LookupOther(ctx, ExpirationKey, Int64Value(expiration), TenantKey);
  }

  /**
   * `AssumeRoleForTenant(ctx, stsClient, roleArn, tenantID, durationSeconds)`,
   * with `time.Now().Unix()` given as `unixSeconds`.
   */
  function AssumeRoleForTenant(roleArn: string, tenantId: string, durationSeconds: int, unixSeconds: int, sts: AssumeRoleOracle)
    : (r: Result<Credentials, CredentialError>)
    ensures tenantId == "" ==> r == Err(EmptyTenant)
    ensures tenantId != "" && roleArn == "" ==> r == Err(EmptyRoleArn)
    ensures r.Ok? <==> tenantId != "" && roleArn != "" && sts(TenantRoleInput(roleArn, tenantId, durationSeconds, unixSeconds)).Ok?
    ensures r.Ok? ==> r.value == FromSts(sts(TenantRoleInput(roleArn, tenantId, durationSeconds, unixSeconds)).value)
    ensures r.Err? && tenantId != "" && roleArn != "" ==> r.error.AssumeRoleFailed? && r.error.tenantId == tenantId
  {
    AssumeTenantRole(roleArn, tenantId, durationSeconds, unixSeconds, sts)
  }

  /**
   * The request STS receives carries exactly one tag, `tenant_id` set to the
   * tenant, and the caller's duration; and validation failures never reach STS.
   */
  lemma AssumeRoleRequestShape(roleArn: string, tenantId: string, durationSeconds: int, unixSeconds: int, sts1: AssumeRoleOracle, sts2: AssumeRoleOracle)
    ensures TenantRoleInput(roleArn, tenantId, durationSeconds, unixSeconds).tags == [Tag(TenantTagKey, tenantId)]
    ensures TenantRoleInput(roleArn, tenantId, durationSeconds, unixSeconds).durationSeconds == durationSeconds
    ensures tenantId == "" || roleArn == "" ==>
      AssumeRoleForTenant(roleArn, tenantId, durationSeconds, unixSeconds, sts1)
        == AssumeRoleForTenant(roleArn, tenantId, durationSeconds, unixSeconds, sts2)
  {
  }
}
