/**
 * The shared-package upload service, the earlier iteration: multipart objects
 * live under a caller-chosen container key, presigned URLs always last two
 * hours, credentials are assumed for a fixed three hours, and several object
 * key checks happen only after the role has been assumed.
 */
module InternalUpload {
  import opened Wrappers
  import opened Sts
  import opened ObjectStorage
  import opened Base64Url
  import opened UploadModel
  import AuthCredentials
  import ApiUpload

  /** Two hours, in nanoseconds. */
  const FixedPresignDuration: int := 2 * 60 * 60 * NanosPerSecond

  /** The checks Complete makes before assuming the role: tenant, upload ID, part ETags. */
  function CompletePrecheck(tenantId: string, req: CompleteUploadRequest): (r: Option<UploadError>)
    ensures r.None? <==> tenantId != "" && req.uploadId != "" && |req.partETags| > 0
    ensures tenantId == "" ==> r == Some(EmptyTenantId)
    ensures tenantId != "" && req.uploadId == "" ==> r == Some(EmptyUploadId)
    ensures tenantId != "" && req.uploadId != "" && |req.partETags| == 0 ==> r == Some(EmptyPartETags)
  {
    if tenantId == "" then Some(EmptyTenantId)
    else if req.uploadId == "" then Some(EmptyUploadId)
    else if |req.partETags| == 0 then Some(EmptyPartETags)
    else None
  }

  /** The checks Refresh makes before assuming the role: tenant, upload ID, part numbers. */
  function RefreshPrecheck(tenantId: string, req: RefreshUploadRequest): (r: Option<UploadError>)
    ensures r.None? <==> tenantId != "" && req.uploadId != "" && |req.partNumbers| > 0
    ensures tenantId == "" ==> r == Some(EmptyTenantId)
    ensures tenantId != "" && req.uploadId == "" ==> r == Some(EmptyUploadId)
    ensures tenantId != "" && req.uploadId != "" && |req.partNumbers| == 0 ==> r == Some(EmptyPartNumbers)
  {
    if tenantId == "" then Some(EmptyTenantId)
    else if req.uploadId == "" then Some(EmptyUploadId)
    else if |req.partNumbers| == 0 then Some(EmptyPartNumbers)
    else None
  }

  /**
   * The two iterations reject the same complete and refresh requests and
   * differ only in when an empty object key is caught: the later one checks
   * it up front, this one after the role is assumed.
   */
  lemma ChecksAgreeAcrossIterations(tenantId: string, complete: CompleteUploadRequest, refresh: RefreshUploadRequest)
    ensures ApiUpload.ValidateCompleteRequest(tenantId, complete) ==
      if CompletePrecheck(tenantId, complete).Some? then CompletePrecheck(tenantId, complete)
      else if complete.objectKey == "" then Some(EmptyObjectKey) else None
    ensures ApiUpload.ValidateRefreshRequest(tenantId, refresh) ==
      if RefreshPrecheck(tenantId, refresh).Some? then RefreshPrecheck(tenantId, refresh)
      else if refresh.objectKey == "" then Some(EmptyObjectKey) else None
  {
  }

  class UploadService {
    const bucketName: string
    const roleArn: string

    /** `NewUploadService` panics without a role ARN. */
    constructor (bucketName: string, roleArn: string)
      requires roleArn != ""
      ensures this.bucketName == bucketName && this.roleArn == roleArn
    {
      this.bucketName := bucketName;
      this.roleArn := roleArn;
    }

    /** Credentials for the tenant, assumed from the service's own identity for the fixed duration. */
    function TenantCredentials(tenantId: string, clock: Clock, sts: AssumeRoleOracle): Result<Credentials, CredentialError> {
      AuthCredentials.AssumeRoleForTenant(roleArn, tenantId, UnixSeconds(clock), sts)
    }

    /**
     * `UploadFile`: an empty tenant or a credential failure ends the call
     * before anything is written; otherwise the content is put under a fresh
     * dated key, which is returned. There is no token-lifetime gate.
     */
    method UploadFile(tenantId: string, content: seq<byte>, clock: Clock, fileId: string,
                      sts: AssumeRoleOracle, s3: Storage, putAnswer: Option<string>)
      returns (r: Result<string, UploadError>)
      modifies s3
      ensures s3.open == old(s3.open)
      ensures r.Err? ==> s3.objects == old(s3.objects)
      ensures tenantId == "" ==> r == Err(EmptyTenantId)
      ensures tenantId != "" && TenantCredentials(tenantId, clock, sts).Err? ==>
        r == Err(CredentialFailure(TenantCredentials(tenantId, clock, sts).error))
      ensures r.Ok? <==> tenantId != "" && TenantCredentials(tenantId, clock, sts).Ok? && putAnswer.None?
      ensures r.Ok? ==>
        && r.value == SingleUploadKey(tenantId, clock.date, fileId)
        && s3.objects == old(s3.objects)[ObjectRef(bucketName, r.value) := Payload(content, "application/json")]
    {
      if tenantId == "" {
        return Err(EmptyTenantId);
      }
      var key := SingleUploadKey(tenantId, clock.date, fileId);
      var creds := TenantCredentials(tenantId, clock, sts);
      if creds.Err? {
        return Err(CredentialFailure(creds.error));
      }
      var err := s3.PutObject(bucketName, key, content, "application/json", putAnswer);
      if err.Some? {
        return Err(PutFailed(err.value));
      }
      return Ok(key);
    }

    /**
     * `InitiateMultipartUpload`: as in the later iteration, but under
     * `<tenant>/<containerKey>/<id>` and with every URL lasting two hours; a
     * presign failure at part `i` aborts the same upload and names part `i`.
     */
    method InitiateMultipartUpload(tenantId: string, req: InitiateUploadRequest, clock: Clock, fileId: string,
                                   sts: AssumeRoleOracle, s3: Storage, createAnswer: Result<string, string>,
                                   presign: Presigner, abortAnswer: Option<string>)
      returns (r: Result<InitiateUploadResponse, UploadError>)
      requires createAnswer.Ok? ==> forall u :: u in s3.open ==> u.uploadId != createAnswer.value
      modifies s3
      ensures s3.objects == old(s3.objects)
      ensures ValidateInitiateRequest(tenantId, req).Some? ==>
        r == Err(ValidateInitiateRequest(tenantId, req).value) && s3.open == old(s3.open)
      ensures ValidateInitiateRequest(tenantId, req).None? && TenantCredentials(tenantId, clock, sts).Err? ==>
        r == Err(CredentialFailure(TenantCredentials(tenantId, clock, sts).error)) && s3.open == old(s3.open)
      ensures (ValidateInitiateRequest(tenantId, req).None? && TenantCredentials(tenantId, clock, sts).Ok?
               && createAnswer.Err?) ==>
        r == Err(CreateFailed(createAnswer.error)) && s3.open == old(s3.open)
      ensures r.Ok? ==>
        var key := ContainerObjectKey(tenantId, req.containerKey, fileId);
        && ValidateInitiateRequest(tenantId, req).None?
        && TenantCredentials(tenantId, clock, sts).Ok?
        && createAnswer.Ok?
        && r.value.uploadId == createAnswer.value
        && r.value.objectKey == key
        && (forall i :: i in r.value.presignedUrls <==> 1 <= i <= PartCount(req.size, req.partSize))
        && (forall i :: i in r.value.presignedUrls ==>
              && presign(PartRequest(bucketName, key, createAnswer.value, i, FixedPresignDuration)).Ok?
              && r.value.presignedUrls[i] == presign(PartRequest(bucketName, key, createAnswer.value, i, FixedPresignDuration)).value)
        && s3.open == old(s3.open) + {UploadRef(bucketName, key, createAnswer.value)}
      ensures r.Err? && r.error.PresignFailed? ==>
        var key := ContainerObjectKey(tenantId, req.containerKey, fileId);
        && createAnswer.Ok?
        && 1 <= r.error.part <= PartCount(req.size, req.partSize)
        && presign(PartRequest(bucketName, key, createAnswer.value, r.error.part, FixedPresignDuration)) == Err(r.error.cause)
        && (forall j :: 1 <= j < r.error.part ==> presign(PartRequest(bucketName, key, createAnswer.value, j, FixedPresignDuration)).Ok?)
      ensures r.Err? && abortAnswer.None? ==> s3.open == old(s3.open)
      ensures r.Err? && createAnswer.Ok? ==>
        s3.open <= old(s3.open) + {UploadRef(bucketName, ContainerObjectKey(tenantId, req.containerKey, fileId), createAnswer.value)}
      ensures r.Err? && createAnswer.Err? ==> s3.open == old(s3.open)
    {
      var invalid := ValidateInitiateRequest(tenantId, req);
      if invalid.Some? {
        return Err(invalid.value);
      }
      var key := ContainerObjectKey(tenantId, req.containerKey, fileId);
      var creds := TenantCredentials(tenantId, clock, sts);
      if creds.Err? {
        return Err(CredentialFailure(creds.error));
      }
      var created := s3.CreateMultipartUpload(bucketName, key, createAnswer);
      if created.Err? {
        return Err(CreateFailed(created.error));
      }
      var numParts := PartCount(req.size, req.partSize);
      var urls := PresignRange(bucketName, key, created.value, numParts, FixedPresignDuration, presign);
      if urls.Err? {
        var abortErr := s3.AbortMultipartUpload(bucketName, key, created.value, abortAnswer);
        return Err(urls.error);
      }
      return Ok(InitiateUploadResponse(urls.value, created.value, key));
    }

    /**
     * `CompleteMultipartUpload`: tenant, upload ID and part ETags are checked
     * first; an empty object key is caught only after the role is assumed and
     * the parts converted; then the store completes the named upload.
     */
    method CompleteMultipartUpload(tenantId: string, req: CompleteUploadRequest, clock: Clock,
                                   sts: AssumeRoleOracle, s3: Storage, completeAnswer: Result<string, string>)
      returns (r: Result<CompleteUploadResponse, UploadError>)
      modifies s3
      ensures CompletePrecheck(tenantId, req).Some? ==> r == Err(CompletePrecheck(tenantId, req).value)
      ensures CompletePrecheck(tenantId, req).None? && TenantCredentials(tenantId, clock, sts).Err? ==>
        r == Err(CredentialFailure(TenantCredentials(tenantId, clock, sts).error))
      ensures (CompletePrecheck(tenantId, req).None? && TenantCredentials(tenantId, clock, sts).Ok?
               && req.objectKey == "") ==> r == Err(EmptyObjectKey)
      ensures r.Ok? <==>
        && CompletePrecheck(tenantId, req).None?
        && TenantCredentials(tenantId, clock, sts).Ok?
        && req.objectKey != ""
        && UploadRef(bucketName, req.objectKey, req.uploadId) in old(s3.open)
        && completeAnswer.Ok?
      ensures r.Ok? ==>
        && r.value == CompleteUploadResponse(req.objectKey, completeAnswer.value)
        && s3.open == old(s3.open) - {UploadRef(bucketName, req.objectKey, req.uploadId)}
        && s3.objects == old(s3.objects)[ObjectRef(bucketName, req.objectKey) := Assembled(req.uploadId, CompletedParts(req.partETags))]
      ensures r.Err? ==> s3.open == old(s3.open) && s3.objects == old(s3.objects)
    {
      var invalid := CompletePrecheck(tenantId, req);
      if invalid.Some? {
        return Err(invalid.value);
      }
      var creds := TenantCredentials(tenantId, clock, sts);
      if creds.Err? {
        return Err(CredentialFailure(creds.error));
      }
      var parts := ConvertPartETags(req.partETags);
      if req.objectKey == "" {
        return Err(EmptyObjectKey);
      }
      var completed := s3.CompleteMultipartUpload(bucketName, req.objectKey, req.uploadId, parts[..], completeAnswer);
      if completed.Err? {
        return Err(CompleteFailed(completed.error));
      }
      return Ok(CompleteUploadResponse(req.objectKey, completed.value));
    }

    /**
     * `AbortMultipartUpload`: tenant and upload ID are checked before the role
     * is assumed, the object key only after; then the store aborts the upload.
     */
    method AbortMultipartUpload(tenantId: string, req: AbortUploadRequest, clock: Clock,
                                sts: AssumeRoleOracle, s3: Storage, abortAnswer: Option<string>)
      returns (err: Option<UploadError>)
      modifies s3
      ensures s3.objects == old(s3.objects)
      ensures tenantId == "" ==> err == Some(EmptyTenantId)
      ensures tenantId != "" && req.uploadId == "" ==> err == Some(EmptyUploadId)
      ensures tenantId != "" && req.uploadId != "" && TenantCredentials(tenantId, clock, sts).Err? ==>
        err == Some(CredentialFailure(TenantCredentials(tenantId, clock, sts).error))
      ensures (tenantId != "" && req.uploadId != "" && TenantCredentials(tenantId, clock, sts).Ok?
               && req.objectKey == "") ==> err == Some(EmptyObjectKey)
      ensures err.None? <==>
        && tenantId != "" && req.uploadId != "" && req.objectKey != ""
        && TenantCredentials(tenantId, clock, sts).Ok?
        && UploadRef(bucketName, req.objectKey, req.uploadId) in old(s3.open)
        && abortAnswer.None?
      ensures err.None? ==> s3.open == old(s3.open) - {UploadRef(bucketName, req.objectKey, req.uploadId)}
      ensures err.Some? ==> s3.open == old(s3.open)
    {
      if tenantId == "" {
        return Some(EmptyTenantId);
      }
      if req.uploadId == "" {
        return Some(EmptyUploadId);
      }
      var creds := TenantCredentials(tenantId, clock, sts);
      if creds.Err? {
        return Some(CredentialFailure(creds.error));
      }
      if req.objectKey == "" {
        return Some(EmptyObjectKey);
      }
      var aborted := s3.AbortMultipartUpload(bucketName, req.objectKey, req.uploadId, abortAnswer);
      if aborted.Some? {
        return Some(AbortFailed(aborted.value));
      }
      return None;
    }

    /**
     * `RefreshPresignedUrls`: tenant, upload ID and part numbers first, then
     * credentials, then the object key; one two-hour URL per distinct
     * requested part. The store is not consulted.
     */
    method RefreshPresignedUrls(tenantId: string, req: RefreshUploadRequest, clock: Clock,
                                sts: AssumeRoleOracle, presign: Presigner)
      returns (r: Result<RefreshUploadResponse, UploadError>)
      ensures RefreshPrecheck(tenantId, req).Some? ==> r == Err(RefreshPrecheck(tenantId, req).value)
      ensures RefreshPrecheck(tenantId, req).None? && TenantCredentials(tenantId, clock, sts).Err? ==>
        r == Err(CredentialFailure(TenantCredentials(tenantId, clock, sts).error))
      ensures (RefreshPrecheck(tenantId, req).None? && TenantCredentials(tenantId, clock, sts).Ok?
               && req.objectKey == "") ==> r == Err(EmptyObjectKey)
      ensures r.Ok? <==>
        && RefreshPrecheck(tenantId, req).None?
        && TenantCredentials(tenantId, clock, sts).Ok?
        && req.objectKey != ""
        && forall k :: 0 <= k < |req.partNumbers| ==>
             presign(PartRequest(bucketName, req.objectKey, req.uploadId, req.partNumbers[k], FixedPresignDuration)).Ok?
      ensures r.Ok? ==> forall p :: p in r.value.presignedUrls <==> p in req.partNumbers
      ensures r.Ok? ==> forall p :: p in r.value.presignedUrls ==>
        && presign(PartRequest(bucketName, req.objectKey, req.uploadId, p, FixedPresignDuration)).Ok?
        && r.value.presignedUrls[p] == presign(PartRequest(bucketName, req.objectKey, req.uploadId, p, FixedPresignDuration)).value
    {
      var invalid := RefreshPrecheck(tenantId, req);
      if invalid.Some? {
        return Err(invalid.value);
      }
      var creds := TenantCredentials(tenantId, clock, sts);
      if creds.Err? {
        return Err(CredentialFailure(creds.error));
      }
      if req.objectKey == "" {
        return Err(EmptyObjectKey);
      }
      var urls := PresignParts(bucketName, req.objectKey, req.uploadId, req.partNumbers, FixedPresignDuration, presign);
      if urls.Err? {
        return Err(urls.error);
      }
      return Ok(RefreshUploadResponse(urls.value));
    }
  }
}
