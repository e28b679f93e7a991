/**
 * The upload Lambda's service: single uploads under dated `.json` keys and the
 * multipart lifecycle under dated `.raw` keys, each operation on credentials
 * freshly assumed for the tenant. Presigned URLs live as long as the caller's
 * token allows, less a buffer, but never less than a floor.
 */
module ApiUpload {
  import opened Wrappers
  import opened GoContext
  import opened Sts
  import opened ObjectStorage
  import opened Base64Url
  import opened UploadModel
  import LambdaCredentials

  const MinSessionDuration: int := 900
  const LongSessionDuration: int := 10800

  /** Durations are nanoseconds, as in `time.Duration`. */
  const Minute: int := 60 * NanosPerSecond
  const PresignedURLBuffer: int := 5 * Minute
  const MinPresignedURLDuration: int := 5 * Minute
  const DefaultPresignedURLDuration: int := 120 * Minute

  /** `time.Unix(tokenExp, 0).Sub(now)`. */
  function Remaining(tokenExp: int, clock: Clock): int {
    tokenExp * NanosPerSecond - clock.unixNanos
  }

  /**
   * `calculatePresignExpiration`: without an expiry in the context, the
   * default; with one, URLs expire exactly the buffer before the token when
   * that leaves at least the floor, and after the floor otherwise.
   */
  function CalculatePresignExpiration(ctx: Context, clock: Clock): (d: int)
    ensures d >= MinPresignedURLDuration
    ensures !LambdaCredentials.GetTokenExpiration(ctx).1 ==> d == DefaultPresignedURLDuration
    ensures LambdaCredentials.GetTokenExpiration(ctx).1 ==>
      var remaining := Remaining(LambdaCredentials.GetTokenExpiration(ctx).0, clock);
      && (remaining - PresignedURLBuffer >= MinPresignedURLDuration ==> d + PresignedURLBuffer == remaining)
      && (remaining - PresignedURLBuffer < MinPresignedURLDuration ==> d == MinPresignedURLDuration)
  {
    var (tokenExp, ok) := LambdaCredentials.GetTokenExpiration(ctx);
    if ok then
      var timeUntilExpiry := Remaining(tokenExp, clock);
      if timeUntilExpiry > 0 then
        var presignExpiration := timeUntilExpiry - PresignedURLBuffer;
        if presignExpiration < MinPresignedURLDuration then MinPresignedURLDuration else presignExpiration
      else MinPresignedURLDuration
    else DefaultPresignedURLDuration
  }

  /** A token that expires later never yields a shorter URL lifetime. */
  lemma PresignExpirationMonotone(ctx: Context, clock: Clock, e1: int, e2: int)
    requires e1 <= e2
    ensures CalculatePresignExpiration(LambdaCredentials.WithTokenExpiration(ctx, e1), clock)
         <= CalculatePresignExpiration(LambdaCredentials.WithTokenExpiration(ctx, e2), clock)
  {
    LambdaCredentials.ExpirationRoundTrip(ctx, e1);
    LambdaCredentials.ExpirationRoundTrip(ctx, e2);
  }

  /**
   * There is no ceiling when an expiry is present: whenever the token has more
   * than the default plus the buffer left, the URLs outlive the two-hour default,
   * expiring exactly the buffer before the token.
   */
  lemma NoCeilingWithExpiry(ctx: Context, clock: Clock, tokenExp: int)
    requires Remaining(tokenExp, clock) > DefaultPresignedURLDuration + PresignedURLBuffer
    ensures CalculatePresignExpiration(LambdaCredentials.WithTokenExpiration(ctx, tokenExp), clock)
          == Remaining(tokenExp, clock) - PresignedURLBuffer
    ensures CalculatePresignExpiration(LambdaCredentials.WithTokenExpiration(ctx, tokenExp), clock)
          > DefaultPresignedURLDuration
  {
    LambdaCredentials.ExpirationRoundTrip(ctx, tokenExp);
  }

  /**
   * The upload gate: with an expiry in the context and less than the minimum
   * session left, the remaining time; otherwise nothing.
   */
  function TokenTooShort(ctx: Context, clock: Clock): (r: Option<int>)
    ensures r.Some? <==>
      LambdaCredentials.GetTokenExpiration(ctx).1
      && Remaining(LambdaCredentials.GetTokenExpiration(ctx).0, clock) < MinSessionDuration * NanosPerSecond
    ensures r.Some? ==> r.value == Remaining(LambdaCredentials.GetTokenExpiration(ctx).0, clock)
  {
    var (tokenExp, ok) := LambdaCredentials.GetTokenExpiration(ctx);
    if ok && Remaining(tokenExp, clock) < MinSessionDuration * NanosPerSecond then Some(Remaining(tokenExp, clock))
    else None
  }

  /** `validateCompleteRequest`: tenant, upload ID, part ETags, object key, in that order. */
  function ValidateCompleteRequest(tenantId: string, req: CompleteUploadRequest): (r: Option<UploadError>)
    ensures r.None? <==> tenantId != "" && req.uploadId != "" && |req.partETags| > 0 && req.objectKey != ""
    ensures tenantId == "" ==> r == Some(EmptyTenantId)
    ensures tenantId != "" && req.uploadId == "" ==> r == Some(EmptyUploadId)
    ensures tenantId != "" && req.uploadId != "" && |req.partETags| == 0 ==> r == Some(EmptyPartETags)
    ensures tenantId != "" && req.uploadId != "" && |req.partETags| > 0 && req.objectKey == "" ==> r == Some(EmptyObjectKey)
  {
    if tenantId == "" then Some(EmptyTenantId)
    else if req.uploadId == "" then Some(EmptyUploadId)
    else if |req.partETags| == 0 then Some(EmptyPartETags)
    else if req.objectKey == "" then Some(EmptyObjectKey)
    else None
  }

  /** `validateRefreshRequest`: tenant, upload ID, part numbers, object key, in that order. */
  function ValidateRefreshRequest(tenantId: string, req: RefreshUploadRequest): (r: Option<UploadError>)
    ensures r.None? <==> tenantId != "" && req.uploadId != "" && |req.partNumbers| > 0 && req.objectKey != ""
    ensures tenantId == "" ==> r == Some(EmptyTenantId)
    ensures tenantId != "" && req.uploadId == "" ==> r == Some(EmptyUploadId)
    ensures tenantId != "" && req.uploadId != "" && |req.partNumbers| == 0 ==> r == Some(EmptyPartNumbers)
    ensures tenantId != "" && req.uploadId != "" && |req.partNumbers| > 0 && req.objectKey == "" ==> r == Some(EmptyObjectKey)
  {
    if tenantId == "" then Some(EmptyTenantId)
    else if req.uploadId == "" then Some(EmptyUploadId)
    else if |req.partNumbers| == 0 then Some(EmptyPartNumbers)
    else if req.objectKey == "" then Some(EmptyObjectKey)
    else None
  }

  class UploadService {
    const bucketName: string
    const roleArn: string

    /** `NewUploadService` panics without a role ARN. */
    constructor (bucketName: string, roleArn: string)
      requires roleArn != ""
      ensures this.bucketName == bucketName && this.roleArn == roleArn
    {
      this.bucketName := bucketName;
      this.roleArn := roleArn;
    }

    /** Credentials for the tenant, assumed from the service's own identity for `durationSeconds`. */
    function TenantCredentials(tenantId: string, durationSeconds: int, clock: Clock, sts: AssumeRoleOracle)
      : Result<Credentials, CredentialError>
    {
      LambdaCredentials.AssumeRoleForTenant(roleArn, tenantId, durationSeconds, UnixSeconds(clock), sts)
    }

    /**
     * `UploadFile`: an empty tenant, then a token too close to expiry, then a
     * credential failure each end the call before anything is written; otherwise
     * the content is put under a fresh dated key, which is returned.
     */
    method UploadFile(ctx: Context, tenantId: string, content: seq<byte>, clock: Clock, fileId: string,
                      sts: AssumeRoleOracle, s3: Storage, putAnswer: Option<string>)
      returns (r: Result<string, UploadError>)
      modifies s3
      ensures s3.open == old(s3.open)
      ensures r.Err? ==> s3.objects == old(s3.objects)
      ensures tenantId == "" ==> r == Err(EmptyTenantId)
      ensures tenantId != "" && TokenTooShort(ctx, clock).Some? ==> r == Err(TokenExpiresTooSoon(TokenTooShort(ctx, clock).value))
      ensures tenantId != "" && TokenTooShort(ctx, clock).None? && TenantCredentials(tenantId, MinSessionDuration, clock, sts).Err? ==>
        r == Err(CredentialFailure(TenantCredentials(tenantId, MinSessionDuration, clock, sts).error))
      ensures r.Ok? <==>
        && tenantId != "" && TokenTooShort(ctx, clock).None?
        && TenantCredentials(tenantId, MinSessionDuration, clock, sts).Ok? && putAnswer.None?
      ensures r.Ok? ==>
        && r.value == SingleUploadKey(tenantId, clock.date, fileId)
        && s3.objects == old(s3.objects)[ObjectRef(bucketName, r.value) := Payload(content, "application/json")]
    {
      if tenantId == "" {
        return Err(EmptyTenantId);
      }
      var tooShort := TokenTooShort(ctx, clock);
      if tooShort.Some? {
        return Err(TokenExpiresTooSoon(tooShort.value));
      }
      var key := SingleUploadKey(tenantId, clock.date, fileId);
      var creds := TenantCredentials(tenantId, MinSessionDuration, clock, sts);
      if creds.Err? {
        return Err(CredentialFailure(creds.error));
      }
      var err := s3.PutObject(bucketName, key, content, "application/json", putAnswer);
      if err.Some? {
        return Err(PutFailed(err.value));
      }
      return Ok(key);
    }

    /**
     * `InitiateMultipartUpload`: validation and credential failures touch no
     * storage; once the upload is created, either every part has a URL (keys
     * exactly `1..n` for the part count `n`, all with the token-derived
     * lifetime) or the same upload is aborted before the error is returned, so
     * a failed initiate leaves no upload open unless that abort itself fails.
     */
    method InitiateMultipartUpload(ctx: Context, tenantId: string, req: InitiateUploadRequest, clock: Clock, fileId: string,
                                   sts: AssumeRoleOracle, s3: Storage, createAnswer: Result<string, string>,
                                   presign: Presigner, abortAnswer: Option<string>)
      returns (r: Result<InitiateUploadResponse, UploadError>)
      requires createAnswer.Ok? ==> forall u :: u in s3.open ==> u.uploadId != createAnswer.value
      modifies s3
      ensures s3.objects == old(s3.objects)
      ensures ValidateInitiateRequest(tenantId, req).Some? ==>
        r == Err(ValidateInitiateRequest(tenantId, req).value) && s3.open == old(s3.open)
      ensures ValidateInitiateRequest(tenantId, req).None? && TenantCredentials(tenantId, LongSessionDuration, clock, sts).Err? ==>
        r == Err(CredentialFailure(TenantCredentials(tenantId, LongSessionDuration, clock, sts).error)) && s3.open == old(s3.open)
      ensures (ValidateInitiateRequest(tenantId, req).None? && TenantCredentials(tenantId, LongSessionDuration, clock, sts).Ok?
               && createAnswer.Err?) ==>
        r == Err(CreateFailed(createAnswer.error)) && s3.open == old(s3.open)
      ensures r.Ok? ==>
        var key := MultipartKey(tenantId, clock.date, fileId);
        var expires := CalculatePresignExpiration(ctx, clock);
        && ValidateInitiateRequest(tenantId, req).None?
        && TenantCredentials(tenantId, LongSessionDuration, clock, sts).Ok?
        && createAnswer.Ok?
        && r.value.uploadId == createAnswer.value
        && r.value.objectKey == key
        && (forall i :: i in r.value.presignedUrls <==> 1 <= i <= PartCount(req.size, req.partSize))
        && (forall i :: i in r.value.presignedUrls ==>
              && presign(PartRequest(bucketName, key, createAnswer.value, i, expires)).Ok?
              && r.value.presignedUrls[i] == presign(PartRequest(bucketName, key, createAnswer.value, i, expires)).value)
        && s3.open == old(s3.open) + {UploadRef(bucketName, key, createAnswer.value)}
      ensures r.Err? && r.error.PresignFailed? ==>
        var key := MultipartKey(tenantId, clock.date, fileId);
        var expires := CalculatePresignExpiration(ctx, clock);
        && createAnswer.Ok?
        && 1 <= r.error.part <= PartCount(req.size, req.partSize)
        && presign(PartRequest(bucketName, key, createAnswer.value, r.error.part, expires)) == Err(r.error.cause)
        && (forall j :: 1 <= j < r.error.part ==> presign(PartRequest(bucketName, key, createAnswer.value, j, expires)).Ok?)
      ensures r.Err? && abortAnswer.None? ==> s3.open == old(s3.open)
      ensures r.Err? && createAnswer.Ok? ==>
        s3.open <= old(s3.open) + {UploadRef(bucketName, MultipartKey(tenantId, clock.date, fileId), createAnswer.value)}
      ensures r.Err? && createAnswer.Err? ==> s3.open == old(s3.open)
    {
      var invalid := ValidateInitiateRequest(tenantId, req);
      if invalid.Some? {
        return Err(invalid.value);
      }
      var key := MultipartKey(tenantId, clock.date, fileId);
      var creds := TenantCredentials(tenantId, LongSessionDuration, clock, sts);
      if creds.Err? {
        return Err(CredentialFailure(creds.error));
      }
      var created := s3.CreateMultipartUpload(bucketName, key, createAnswer);
      if created.Err? {
        return Err(CreateFailed(created.error));
      }
      var numParts := PartCount(req.size, req.partSize);
      var expires := CalculatePresignExpiration(ctx, clock);
      var urls := PresignRange(bucketName, key, created.value, numParts, expires, presign);
      if urls.Err? {
        var abortErr := s3.AbortMultipartUpload(bucketName, key, created.value, abortAnswer);
        return Err(urls.error);
      }
      return Ok(InitiateUploadResponse(urls.value, created.value, key));
    }

    /**
     * `CompleteMultipartUpload`: all request checks, then credentials, then the
     * store completes the named upload from the converted parts in order.
     */
    method CompleteMultipartUpload(tenantId: string, req: CompleteUploadRequest, clock: Clock,
                                   sts: AssumeRoleOracle, s3: Storage, completeAnswer: Result<string, string>)
      returns (r: Result<CompleteUploadResponse, UploadError>)
      modifies s3
      ensures ValidateCompleteRequest(tenantId, req).Some? ==>
        r == Err(ValidateCompleteRequest(tenantId, req).value) && s3.open == old(s3.open) && s3.objects == old(s3.objects)
      ensures ValidateCompleteRequest(tenantId, req).None? && TenantCredentials(tenantId, MinSessionDuration, clock, sts).Err? ==>
        && r == Err(CredentialFailure(TenantCredentials(tenantId, MinSessionDuration, clock, sts).error))
        && s3.open == old(s3.open) && s3.objects == old(s3.objects)
      ensures r.Ok? <==>
        && ValidateCompleteRequest(tenantId, req).None?
        && TenantCredentials(tenantId, MinSessionDuration, clock, sts).Ok?
        && UploadRef(bucketName, req.objectKey, req.uploadId) in old(s3.open)
        && completeAnswer.Ok?
      ensures r.Ok? ==>
        && r.value == CompleteUploadResponse(req.objectKey, completeAnswer.value)
        && s3.open == old(s3.open) - {UploadRef(bucketName, req.objectKey, req.uploadId)}
        && s3.objects == old(s3.objects)[ObjectRef(bucketName, req.objectKey) := Assembled(req.uploadId, CompletedParts(req.partETags))]
      ensures r.Err? ==> s3.open == old(s3.open) && s3.objects == old(s3.objects)
    {
      var invalid := ValidateCompleteRequest(tenantId, req);
      if invalid.Some? {
        return Err(invalid.value);
      }
      var creds := TenantCredentials(tenantId, MinSessionDuration, clock, sts);
      if creds.Err? {
        return Err(CredentialFailure(creds.error));
      }
      var parts := ConvertPartETags(req.partETags);
      var completed := s3.CompleteMultipartUpload(bucketName, req.objectKey, req.uploadId, parts[..], completeAnswer);
      if completed.Err? {
        return Err(CompleteFailed(completed.error));
      }
      return Ok(CompleteUploadResponse(req.objectKey, completed.value));
    }

    /**
     * `AbortMultipartUpload`: tenant and upload ID are checked before the role
     * is assumed, the object key only after; then the store aborts the upload.
     */
    method AbortMultipartUpload(tenantId: string, req: AbortUploadRequest, clock: Clock,
                                sts: AssumeRoleOracle, s3: Storage, abortAnswer: Option<string>)
      returns (err: Option<UploadError>)
      modifies s3
      ensures s3.objects == old(s3.objects)
      ensures tenantId == "" ==> err == Some(EmptyTenantId)
      ensures tenantId != "" && req.uploadId == "" ==> err == Some(EmptyUploadId)
      ensures tenantId != "" && req.uploadId != "" && TenantCredentials(tenantId, MinSessionDuration, clock, sts).Err? ==>
        err == Some(CredentialFailure(TenantCredentials(tenantId, MinSessionDuration, clock, sts).error))
      ensures (tenantId != "" && req.uploadId != "" && TenantCredentials(tenantId, MinSessionDuration, clock, sts).Ok?
               && req.objectKey == "") ==> err == Some(EmptyObjectKey)
      ensures err.None? <==>
        && tenantId != "" && req.uploadId != "" && req.objectKey != ""
        && TenantCredentials(tenantId, MinSessionDuration, clock, sts).Ok?
        && UploadRef(bucketName, req.objectKey, req.uploadId) in old(s3.open)
        && abortAnswer.None?
      ensures err.None? ==> s3.open == old(s3.open) - {UploadRef(bucketName, req.objectKey, req.uploadId)}
      ensures err.Some? ==> s3.open == old(s3.open)
    {
      if tenantId == "" {
        return Some(EmptyTenantId);
      }
      if req.uploadId == "" {
        return Some(EmptyUploadId);
      }
      var creds := TenantCredentials(tenantId, MinSessionDuration, clock, sts);
      if creds.Err? {
        return Some(CredentialFailure(creds.error));
      }
      if req.objectKey == "" {
        return Some(EmptyObjectKey);
      }
      var aborted := s3.AbortMultipartUpload(bucketName, req.objectKey, req.uploadId, abortAnswer);
      if aborted.Some? {
        return Some(AbortFailed(aborted.value));
      }
      return None;
    }

    /**
     * `RefreshPresignedUrls`: after the request checks and credentials, one URL
     * per distinct requested part, all with the token-derived lifetime. Nothing
     * is asked of the store, so an aborted or completed upload is not noticed.
     */
    method RefreshPresignedUrls(ctx: Context, tenantId: string, req: RefreshUploadRequest, clock: Clock,
                                sts: AssumeRoleOracle, presign: Presigner)
      returns (r: Result<RefreshUploadResponse, UploadError>)
      ensures ValidateRefreshRequest(tenantId, req).Some? ==> r == Err(ValidateRefreshRequest(tenantId, req).value)
      ensures ValidateRefreshRequest(tenantId, req).None? && TenantCredentials(tenantId, LongSessionDuration, clock, sts).Err? ==>
        r == Err(CredentialFailure(TenantCredentials(tenantId, LongSessionDuration, clock, sts).error))
      ensures r.Ok? <==>
        && ValidateRefreshRequest(tenantId, req).None?
        && TenantCredentials(tenantId, LongSessionDuration, clock, sts).Ok?
        && forall k :: 0 <= k < |req.partNumbers| ==>
             presign(PartRequest(bucketName, req.objectKey, req.uploadId, req.partNumbers[k], CalculatePresignExpiration(ctx, clock))).Ok?
      ensures r.Ok? ==> forall p :: p in r.value.presignedUrls <==> p in req.partNumbers
      ensures r.Ok? ==> forall p :: p in r.value.presignedUrls ==>
        && presign(PartRequest(bucketName, req.objectKey, req.uploadId, p, CalculatePresignExpiration(ctx, clock))).Ok?
        && r.value.presignedUrls[p] ==
             presign(PartRequest(bucketName, req.objectKey, req.uploadId, p, CalculatePresignExpiration(ctx, clock))).value
    {
      var invalid := ValidateRefreshRequest(tenantId, req);
      if invalid.Some? {
        return Err(invalid.value);
      }
      var creds := TenantCredentials(tenantId, LongSessionDuration, clock, sts);
      if creds.Err? {
        return Err(CredentialFailure(creds.error));
      }
      var expires := CalculatePresignExpiration(ctx, clock);
      var urls := PresignParts(bucketName, req.objectKey, req.uploadId, req.partNumbers, expires, presign);
      if urls.Err? {
        return Err(urls.error);
      }
      return Ok(RefreshUploadResponse(urls.value));
    }
  }
}
