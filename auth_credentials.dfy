/**
 * The shared auth package's credential helpers: a credentials provider that
 * appends the tenant to the session token, the tenant context helpers, and
 * role assumption with a fixed three-hour duration.
 */
module AuthCredentials {
  import opened Wrappers
  import opened Strings
  import opened GoContext
  import opened Sts

  /** `ContextTenantKey`, of this package's `TenantInfo` type (distinct from the Lambda package's). */
  const TenantKey: Key := Key("auth.TenantInfo", "tenant_id")

  /** The duration `AssumeRoleForTenant` always requests, in seconds (3 hours). */
  const FixedDurationSeconds: int := 10800

  const TenantIdMarker: string := ";tenantId="

  datatype RetrieveError = BaseCredentialsFailed(cause: string)

  /** `TenantTaggedCredentialsProvider`: the wrapped provider (its `Retrieve` answer) and the tenant. */
  datatype TenantTaggedCredentialsProvider = TenantTaggedCredentialsProvider(
    source: () -> Result<Credentials, string>,
    tenantId: string)

  /** `fmt.Sprintf("%s;tenantId=%s", token, tenantID)`. */
  function TagSessionToken(token: string, tenantId: string): (tagged: string)
    ensures HasPrefix(tagged, token)
    ensures HasSuffix(tagged, TenantIdMarker + tenantId)
  {
    var tagged := token + TenantIdMarker + tenantId;
    assert tagged[..|token|] == token;
    assert tagged[|tagged| - |TenantIdMarker + tenantId|..] == TenantIdMarker + tenantId;
    tagged
  }

  /** From a known source token, the tagged token determines the tenant. */
  lemma TagSessionTokenInjective(token: string, t1: string, t2: string)
    requires TagSessionToken(token, t1) == TagSessionToken(token, t2)
    ensures t1 == t2
  {
    var n := |token| + |TenantIdMarker|;
    assert t1 == TagSessionToken(token, t1)[n..];
    assert t2 == TagSessionToken(token, t2)[n..];
  }

  /**
   * `Retrieve`: a failing source yields an error (and zero credentials in Go);
   * otherwise the source's credentials with the tenant appended to the session
   * token and every other field unchanged.
   */
  function Retrieve(p: TenantTaggedCredentialsProvider): (r: Result<Credentials, RetrieveError>)
    ensures p.source().Err? ==> r == Err(BaseCredentialsFailed(p.source().error))
    ensures p.source().Ok? ==> r.Ok?
    ensures p.source().Ok? ==> r.value.sessionToken == TagSessionToken(p.source().value.sessionToken, p.tenantId)
    ensures p.source().Ok? ==> r.value.(sessionToken := p.source().value.sessionToken) == p.source().value
  {
    match p.source()
    case Err(e) => Err(BaseCredentialsFailed(e))
    case Ok(c) => Ok(c.(sessionToken := TagSessionToken(c.sessionToken, p.tenantId)))
  }

  function WithTenantID(ctx: Context, tenantId: string): Context {
    WithValue(ctx, TenantKey, StringValue(tenantId))
  }

  function GetTenantID(ctx: Context): (r: (string, bool))
    ensures Lookup(ctx, TenantKey).None? ==> r == ("", false)
  {
    StringAt(ctx, TenantKey)
  }

  /** A tenant stored in the context is read back unchanged. */
  lemma TenantRoundTrip(ctx: Context, tenantId: string)
    ensures GetTenantID(WithTenantID(ctx, tenantId)) == (tenantId, true)
  {
  }

  /**
   * `AssumeRoleForTenant(ctx, stsClient, roleArn, tenantID)`: like the Lambda
   * package's helper, but always asking for 10800 seconds.
   */
  function AssumeRoleForTenant(roleArn: string, tenantId: string, unixSeconds: int, sts: AssumeRoleOracle)
    : (r: Result<Credentials, CredentialError>)
    ensures tenantId == "" ==> r == Err(EmptyTenant)
    ensures tenantId != "" && roleArn == "" ==> r == Err(EmptyRoleArn)
    ensures r.Ok? <==> tenantId != "" && roleArn != "" && sts(TenantRoleInput(roleArn, tenantId, FixedDurationSeconds, unixSeconds)).Ok?
    ensures r.Ok? ==> r.value == FromSts(sts(TenantRoleInput(roleArn, tenantId, FixedDurationSeconds, unixSeconds)).value)
    ensures r.Ok? ==> r.value.source == AssumeRoleSource && r.value.canExpire
    ensures r.Err? && tenantId != "" && roleArn != "" ==> r.error == AssumeRoleFailed(tenantId, sts(TenantRoleInput(roleArn, tenantId, FixedDurationSeconds, unixSeconds)).error)
  {
    AssumeTenantRole(roleArn, tenantId, FixedDurationSeconds, unixSeconds, sts)
  }

  /** The request carries exactly one tag, `tenant_id` set to the tenant, and a 10800-second duration. */
  lemma AssumeRoleRequestShape(roleArn: string, tenantId: string, unixSeconds: int)
    ensures TenantRoleInput(roleArn, tenantId, FixedDurationSeconds, unixSeconds).tags == [Tag(TenantTagKey, tenantId)]
    ensures TenantRoleInput(roleArn, tenantId, FixedDurationSeconds, unixSeconds).durationSeconds == 10800
    ensures TenantRoleInput(roleArn, tenantId, FixedDurationSeconds, unixSeconds).roleSessionName
      == "tenant-" + tenantId + "-session-" + IntToString(unixSeconds)
  {
  }
}
