/**
 * Credential elevation shared by both credential helpers: the shapes of the
 * AWS SDK's STS `AssumeRole` call and of `aws.Credentials`, and the
 * tenant-tagged request both helpers send. STS itself is an oracle: a function
 * from the request to its answer. Since the oracle has no state, "STS is not
 * called" shows as a result that does not depend on it.
 */
module Sts {
  import opened Wrappers
  import opened Strings

  datatype Tag = Tag(key: string, value: string)

  datatype AssumeRoleInput = AssumeRoleInput(
    roleArn: string,
    roleSessionName: string,
    tags: seq<Tag>,
    durationSeconds: int)

  /** The credentials in an `AssumeRole` answer (`types.Credentials`); times are Unix seconds. */
  datatype StsCredentials = StsCredentials(
    accessKeyId: string,
    secretAccessKey: string,
    sessionToken: string,
    expiration: int)

  /** `aws.Credentials`. */
  datatype Credentials = Credentials(
    accessKeyId: string,
    secretAccessKey: string,
    sessionToken: string,
    source: string,
    canExpire: bool,
    expires: int)

  /** STS `AssumeRole`: an answer or the error it returned. */
  type AssumeRoleOracle = AssumeRoleInput -> Result<StsCredentials, string>

  datatype CredentialError =
    | EmptyTenant
    | EmptyRoleArn
    | AssumeRoleFailed(tenantId: string, cause: string)

  const TenantTagKey: string := "tenant_id"
  const AssumeRoleSource: string := "AssumeRoleProvider"

  /** `fmt.Sprintf("tenant-%s-session-%d", tenantID, time.Now().Unix())`. */
  function SessionName(tenantId: string, unixSeconds: int): (name: string)
    ensures HasPrefix(name, "tenant-" + tenantId)
    ensures HasSuffix(name, "-session-" + IntToString(unixSeconds))
  {
    var name := "tenant-" + tenantId + "-session-" + IntToString(unixSeconds);
    assert name[..|"tenant-" + tenantId|] == "tenant-" + tenantId;
    assert name[|name| - |"-session-" + IntToString(unixSeconds)|..] == "-session-" + IntToString(unixSeconds);
    name
  }

  /** Two tenants elevating in the same second get different session names. */
  lemma SessionNameInjective(t1: string, t2: string, unixSeconds: int)
    requires SessionName(t1, unixSeconds) == SessionName(t2, unixSeconds)
    ensures t1 == t2
  {
    var n := SessionName(t1, unixSeconds);
    assert |t1| == |t2|;
    assert t1 == n[7..7 + |t1|];
    assert t2 == SessionName(t2, unixSeconds)[7..7 + |t2|];
  }

  /** The values of every tag with key `key`, in order. */
  function TagValues(tags: seq<Tag>, key: string): (vs: seq<string>)
    ensures |vs| <= |tags|
  {
    if |tags| == 0 then []
    else (if tags[0].key == key then [tags[0].value] else []) + TagValues(tags[1..], key)
  }

  /**
   * The tenant a session is scoped to, as storage-side policy reads the
   * `aws:PrincipalTag/tenant_id` condition: defined only when the session carries
   * exactly one `tenant_id` tag.
   */
  function SessionTenant(input: AssumeRoleInput): Option<string> {
    var vs := TagValues(input.tags, TenantTagKey);
    if |vs| == 1 then Some(vs[0]) else None
  }

  /** The `AssumeRole` request both helpers build for a tenant. */
  function TenantRoleInput(roleArn: string, tenantId: string, durationSeconds: int, unixSeconds: int): (input: AssumeRoleInput)
    ensures input.roleArn == roleArn && input.durationSeconds == durationSeconds
    ensures input.roleSessionName == SessionName(tenantId, unixSeconds)
    ensures SessionTenant(input) == Some(tenantId)
  {
    AssumeRoleInput(roleArn, SessionName(tenantId, unixSeconds), [Tag(TenantTagKey, tenantId)], durationSeconds)
  }

  /** Tenant isolation: requests built for different tenants are scoped to different tenants. */
  lemma TenantRoleInputIsolates(roleArn: string, t1: string, t2: string, d1: int, d2: int, s1: int, s2: int)
    requires t1 != t2
    ensures SessionTenant(TenantRoleInput(roleArn, t1, d1, s1)) != SessionTenant(TenantRoleInput(roleArn, t2, d2, s2))
  {
  }

  /** Conversion of an STS answer into `aws.Credentials`. */
  function FromSts(c: StsCredentials): (r: Credentials)
    ensures r.accessKeyId == c.accessKeyId && r.secretAccessKey == c.secretAccessKey
    ensures r.sessionToken == c.sessionToken && r.expires == c.expiration
    ensures r.source == AssumeRoleSource && r.canExpire
  {
    Credentials(c.accessKeyId, c.secretAccessKey, c.sessionToken, AssumeRoleSource, true, c.expiration)
  }

  /**
   * The body shared by both `AssumeRoleForTenant` helpers: reject an empty
   * tenant, then an empty role ARN, without calling STS; otherwise send the
   * tenant-tagged request once and convert its answer.
   */
  function AssumeTenantRole(roleArn: string, tenantId: string, durationSeconds: int, unixSeconds: int, sts: AssumeRoleOracle)
    : (r: Result<Credentials, CredentialError>)
    ensures tenantId == "" ==> r == Err(EmptyTenant)
    ensures tenantId != "" && roleArn == "" ==> r == Err(EmptyRoleArn)
    ensures tenantId != "" && roleArn != "" ==>
      var answer := sts(TenantRoleInput(roleArn, tenantId, durationSeconds, unixSeconds));
      && (answer.Err? ==> r == Err(AssumeRoleFailed(tenantId, answer.error)))
      && (answer.Ok? ==> r == Ok(FromSts(answer.value)))
  {
    if tenantId == "" then Err(EmptyTenant)
    else if roleArn == "" then Err(EmptyRoleArn)
    else
      match sts(TenantRoleInput(roleArn, tenantId, durationSeconds, unixSeconds))
      case Err(e) => Err(AssumeRoleFailed(tenantId, e))
      case Ok(c) => Ok(FromSts(c))
  }
}
