# Tenant-isolated uploads: a Dafny model

This project models the core of a multi-tenant upload service on AWS. Every
request carries a Cognito token with a `tenant_id` claim. The claim is put
there at sign-in by a pre-token-generation Lambda. An API Gateway authorizer
verifies the token and passes the tenant to the upload Lambda in its context.
The upload Lambda then elevates to a tenant-tagged STS session and writes only
under `<tenant>/…` in one shared S3 bucket. It supports single-shot uploads
and multipart uploads (initiate, complete, abort, refresh of presigned part
URLs). The lifetime of presigned URLs follows the remaining life of the token.

The model is organised by source file:

- `cognito_authorizer.dfy` models the REQUEST authorizer
  (`lambdas/cognito/authorizer/main.go`). It covers issuer extraction,
  base64url (section 5 of RFC 4648, no padding), OIDC verification, the
  Allow/Deny policy, and the context it passes on.
- `lambda_authorizer.dfy` models the older TOKEN authorizer
  (`lambda/authorizer/main.go`).
- `pre_token_event.dfy`, `cognito_pre_token.dfy` and `lambda_pre_token.dfy`
  model the two pre-token triggers. Claim maps are heap objects that the
  handlers update in place. A map that is absent (nil) is created.
- `sts.dfy`, `lambda_credentials.dfy` and `auth_credentials.dfy` cover
  `cmd/lambda/credentials.go` and `internal/auth/credentials.go`:
  - context keys for the tenant and the token expiry;
  - the tenant-tagged `AssumeRole` request;
  - the session-token tagging provider.
- `jwt.dfy` and `auth_middleware.dfy` model the tenant extraction of the
  shared auth package and its HTTP middleware.
- `object_storage.dfy` holds the S3 state the upload operations change: the
  set of open multipart uploads and the stored objects.
- `upload_model.dfy` holds what both upload services share:
  - request and response shapes;
  - dated object keys;
  - part counting;
  - the presigning loops;
  - the `int32` part-number conversion.
- `api_upload.dfy` models `lambdas/api/upload/upload.go` as the class
  `UploadService`. `upload_service.dfy` models the earlier
  `internal/upload/service.go` the same way.
- `upload_lambda_context.dfy` models how the upload Lambda reads the
  authorizer context (`lambdas/api/upload/main.go:247-268`). The one defect
  listed under Findings comes from this step.

External services are parameters:

- STS `AssumeRole`, the S3 presigner, JSON decoding, OIDC discovery and
  signature verification, the unverified JWT parser, and the DynamoDB
  `GetItem` are pure functions handed to the operations.
- The outcome of each S3 call is an answer parameter of the storage method.
- Each operation gets one clock reading and one generated file ID.

An oracle that does not appear in a result, or storage that stays unchanged,
shows that the call was not made.

Tenant isolation of object keys holds only for tenant IDs without `/`. Under
that condition, `UploadModel.KeysIsolateTenants` shows that a key written for
one tenant never starts with another tenant's prefix. Nothing in the code
rejects a `/` in a tenant ID. `UploadModel.SlashInTenantCrossesPrefix` shows
that the tenant `a/b` writes under the prefix `a/`.

The code does not do the following:

- Initiate does not check the token's remaining life at all. Only the
  single-shot upload refuses a token with less than `MinSessionDuration`
  (900 seconds) left (`lambdas/api/upload/upload.go:94-100`).
- The presigned-URL lifetime has no upper bound when a token expiry is
  known. It is the remaining life minus `PresignedURLBuffer` (five minutes),
  never less than `MinPresignedURLDuration` (five minutes). It is not capped
  at `DefaultPresignedURLDuration` (two hours) (`ApiUpload.NoCeilingWithExpiry`).
- Refresh never consults storage. It presigns part URLs for any upload ID it
  is given, including one that was already aborted or completed
  (`ApiUpload.UploadService.RefreshPresignedUrls` has no storage parameter).

The upload Lambda in `lambdas/api/upload` imports its own credential helpers,
and that file is not part of this model. `ApiUpload` uses
`LambdaCredentials.AssumeRoleForTenant` (`cmd/lambda/credentials.go`), which
has the same signature as that call and is assumed to behave like it.

## Model

| member | source | states |
|---|---|---|
| `Strings.SplitJoin` | lambdas/cognito/authorizer/main.go:30-33 | splitting on `.` a join of dot-free pieces gives back exactly those pieces, so a three-part compact token splits into its three parts |
| `Strings.JoinSplit` | lambdas/cognito/authorizer/main.go:30 | joining the pieces of a split with the same separator gives back the original string |
| `Strings.SplitLength` | lambdas/cognito/authorizer/main.go:30-32 | a split yields one more piece than there are separators, which is the part count the authorizer reports on error |
| `Strings.ParseIntOfIntToString` | lambdas/cognito/authorizer/main.go:171 | reading back the decimal expiry the authorizer writes gives the same 64-bit integer |
| `Base64Url.Decode` | lambdas/cognito/authorizer/main.go:36-39 | raw base64url decoding succeeds exactly when the input, with CR and LF removed, is in the URL-safe alphabet and its length is not 1 modulo 4; the output is three quarters of that length |
| `Base64Url.DecodeEncode` | lambdas/cognito/authorizer/main.go:36 | decoding the unpadded encoding of any payload gives back that payload |
| `Base64Url.PaddingRejected` | lambdas/cognito/authorizer/main.go:36-39 | a payload containing `=` padding is rejected by the raw decoder |
| `Json.TruncateToInt` | lambdas/api/upload/main.go:263 | converting the float expiry to `int64` truncates toward zero |
| `CognitoAuthorizer.ExtractIssuerFromToken` | lambdas/cognito/authorizer/main.go:28-53 | a token without exactly two dots fails and reports its part count; it succeeds exactly when there are three parts, the payload decodes to a JSON object and its `iss` claim is a non-empty string, which is the result |
| `CognitoAuthorizer.IssuerOfCompactToken` | lambdas/cognito/authorizer/main.go:28-53 | for any dot-free header and signature around an encoded payload with a non-empty `iss`, issuer extraction returns that issuer |
| `CognitoAuthorizer.VerifiedClaims` | lambdas/cognito/authorizer/main.go:55-84 | issuer errors propagate; success means the issuer's provider was discovered and the signature verified, and the claims are the verified token's claims |
| `CognitoAuthorizer.ValidateToken` | lambdas/cognito/authorizer/main.go:55-108 | a verified token is accepted exactly when its `tenant_id` is non-empty; the result carries that tenant, the username claim and the truncated `exp` |
| `CognitoAuthorizer.StripBearer` | lambdas/cognito/authorizer/main.go:137-143 | a prefix `bearer ` in any letter case, followed by at least one character, is removed; anything else is left unchanged |
| `CognitoAuthorizer.StripBearerAnyCase` | lambdas/cognito/authorizer/main.go:137-143 | every case variant of the scheme is stripped, and a bare scheme with nothing after it is kept |
| `CognitoAuthorizer.GeneratePolicy` | lambdas/cognito/authorizer/main.go:176-185 | the policy has the 2012-10-17 version and a single `execute-api:Invoke` statement with the given effect on the given resource |
| `CognitoAuthorizer.AuthorizationHeader` | lambdas/cognito/authorizer/main.go:119-131 | `Authorization` takes precedence over `authorization`; the header is absent only when neither key is present |
| `CognitoAuthorizer.Handler` | lambdas/cognito/authorizer/main.go:110-174 | a missing header or a failed validation gives an unauthorized Deny with an empty context; otherwise the tenant is the principal, invoke is allowed, and the context holds the tenant, the username and the expiry as a decimal string |
| `CognitoAuthorizer.HandlerAllowsOnlyValidTokens` | lambdas/cognito/authorizer/main.go:145-173 | the handler allows a call exactly when the token validates, and then the principal is the validated non-empty tenant |
| `LambdaAuthorizer.ExtractTokenClaims` | lambda/authorizer/main.go:54-69 | claims are returned exactly when parsing succeeds with the tenant claims type |
| `LambdaAuthorizer.GenerateIAMPolicy` | lambda/authorizer/main.go:72-95 | one statement with the effect on the method, and a context holding `tenant_id` and `sub` |
| `LambdaAuthorizer.HandleRequest` | lambda/authorizer/main.go:22-51 | an empty token, an unparsable token and an empty tenant fail in that order with their own messages; success exactly when a non-empty tenant is parsed, and the response then allows that tenant |
| `LambdaAuthorizer.HandleRequestOnlyAllows` | lambda/authorizer/main.go:22-51 | every response grants invoke on the method to a non-empty principal that equals the context's `tenant_id` |
| `PreTokenEvent.WithTenantClaim` | lambda/pre-token/main.go:28 | the claim map gains `tenant_id` set to the tenant, and every other claim is kept unchanged |
| `PreTokenEvent.WithTenantClaimIdempotent` | lambdas/cognito/pre-token/main.go:73-82 | writing the tenant claim twice is the same as writing it once, which makes aliased ID and access maps safe |
| `PreTokenEvent.WithTenantClaimOverrides` | lambda/pre-token/main.go:28 | a later tenant claim replaces an earlier one |
| `PreTokenEvent.SetTenantClaim` | lambda/pre-token/main.go:25-28 | a nil map is replaced by a fresh one; the map's new entries are its old entries with the tenant claim added |
| `PreTokenEvent.AddTenantClaim` | lambda/pre-token/main.go:24-34 | both the ID-token and the access-token maps end up holding the tenant claim over their old entries, and the user fields are kept |
| `CognitoPreToken.TenantFromLookup` | lambdas/cognito/pre-token/main.go:39-67 | a tenant is found exactly when the lookup succeeded, returned an item, and the item's `tenant_id` is a non-empty string attribute |
| `CognitoPreToken.HandleRequest` | lambdas/cognito/pre-token/main.go:35-86 | without a tenant the event and both claim maps are returned unchanged; with a tenant both maps carry it over their old entries |
| `LambdaPreToken.HandleRequest` | lambda/pre-token/main.go:14-38 | an empty configured tenant leaves the event unchanged; otherwise both claim maps carry the tenant |
| `Sts.SessionName` | cmd/lambda/credentials.go:62 | the session name starts with `tenant-<tenant>` and ends with `-session-<unix seconds>` |
| `Sts.SessionNameInjective` | cmd/lambda/credentials.go:62 | two tenants elevating in the same second get different session names |
| `Sts.TenantRoleInput` | cmd/lambda/credentials.go:65-75 | the request carries the role, the session name and the duration, and its tags scope it to exactly the tenant |
| `Sts.TenantRoleInputIsolates` | internal/auth/credentials.go:72-82 | requests built for different tenants are scoped to different tenants |
| `Sts.FromSts` | cmd/lambda/credentials.go:84-91 | the converted credentials keep the keys, token and expiry, say they can expire, and name the assume-role source |
| `Sts.AssumeTenantRole` | cmd/lambda/credentials.go:52-92 | an empty tenant and then an empty role are rejected without calling STS; otherwise the STS answer is converted, and an STS error is reported with the tenant |
| `LambdaCredentials.TenantRoundTrip` | cmd/lambda/credentials.go:28-36 | a tenant stored in the context is read back unchanged |
| `LambdaCredentials.ExpirationRoundTrip` | cmd/lambda/credentials.go:39-47 | a token expiry stored in the context is read back unchanged |
| `LambdaCredentials.KeysIndependent` | cmd/lambda/credentials.go:13-23 | storing the tenant does not change the expiry that is read, and storing the expiry does not change the tenant |
| `LambdaCredentials.AssumeRoleForTenant` | cmd/lambda/credentials.go:52-92 | success exactly when the tenant and role are non-empty and STS answers; the result is the converted STS answer |
| `LambdaCredentials.AssumeRoleRequestShape` | cmd/lambda/credentials.go:53-75 | the request has exactly one tag, `tenant_id` set to the tenant, and the caller's duration; an invalid call's result does not depend on STS |
| `AuthCredentials.TagSessionToken` | internal/auth/credentials.go:39 | the tagged token starts with the source token and ends with `;tenantId=<tenant>` |
| `AuthCredentials.TagSessionTokenInjective` | internal/auth/credentials.go:39 | from a known source token, the tagged token determines the tenant |
| `AuthCredentials.Retrieve` | internal/auth/credentials.go:29-42 | a failing source fails; otherwise only the session token changes, to the tagged token |
| `AuthCredentials.TenantRoundTrip` | internal/auth/credentials.go:47-55 | a tenant stored in the context is read back unchanged |
| `AuthCredentials.AssumeRoleForTenant` | internal/auth/credentials.go:59-99 | as the Lambda helper, with the duration fixed at 10800 seconds; an STS error is reported with its cause |
| `AuthCredentials.AssumeRoleRequestShape` | internal/auth/credentials.go:69-82 | the request has exactly one `tenant_id` tag, a 10800-second duration, and the session name `tenant-<tenant>-session-<seconds>` |
| `AuthJwt.ExtractTenantFromToken` | internal/auth/jwt.go:26-50 | one `Bearer ` prefix is removed; success exactly when the rest parses with the tenant claims type and a non-empty tenant, which is the result |
| `AuthJwt.OneBearerRemoved` | internal/auth/jwt.go:28 | only one `Bearer ` is removed from a doubled prefix |
| `AuthJwt.GetBucketNameForTenant` | internal/auth/jwt.go:53-55 | the bucket name is `<prefix>-store-` followed by the tenant |
| `AuthJwt.BucketNamesDistinct` | internal/auth/jwt.go:53-55 | different tenants get different bucket names under one prefix |
| `AuthMiddleware.TenantMiddleware` | internal/auth/middleware.go:10-35 | the next handler is called exactly once with the same headers; the context gains the tenant only when the header has the Bearer scheme and extraction succeeds |
| `AuthMiddleware.MiddlewareTenantNonEmpty` | internal/auth/middleware.go:10-35 | whenever the middleware sets a tenant, it is non-empty |
| `ObjectStorage.Storage.constructor` | lambdas/api/upload/upload.go:70-84 | storage starts with no open uploads and no objects |
| `ObjectStorage.Storage.PutObject` | lambdas/api/upload/upload.go:121-135 | on success the object at the bucket and key is replaced by the payload and content type; on failure nothing changes |
| `ObjectStorage.Storage.CreateMultipartUpload` | lambdas/api/upload/upload.go:228-236 | on success a new upload is opened under the returned ID; objects never change |
| `ObjectStorage.Storage.AbortMultipartUpload` | lambdas/api/upload/upload.go:373-381 | aborting an upload that is not open fails; on success that one upload is closed; objects never change |
| `ObjectStorage.Storage.CompleteMultipartUpload` | lambdas/api/upload/upload.go:323-332 | completing an upload that is not open fails; on success the upload is closed and the object becomes the assembled parts |
| `UploadModel.DatePath` | lambdas/api/upload/upload.go:44-54 | the date path splits on `/` into exactly the decimal year and the zero-padded month and day |
| `UploadModel.SingleUploadKey` | lambdas/api/upload/upload.go:44-54 | the key starts with `<tenant>/` and ends with `<id>.json` |
| `UploadModel.MultipartKey` | lambdas/api/upload/upload.go:57-67 | the key starts with `<tenant>/`, ends with `<id>.raw`, and never equals the single-upload key of the same tenant, date and ID |
| `UploadModel.ContainerObjectKey` | internal/upload/service.go:116 | the key starts with `<tenant>/` and ends with `/<id>` |
| `UploadModel.EmptyContainerKey` | internal/upload/service.go:116 | an empty container key yields a doubled slash, `<tenant>//<id>` |
| `UploadModel.DatedKeySegments` | lambdas/api/upload/upload.go:44-67 | a dated key splits on `/` into exactly tenant, year, month, day and file name |
| `UploadModel.SingleUploadKeyTenant` | lambdas/api/upload/upload.go:44-54 | the first path segment of a single-upload key is the tenant, and there are five segments |
| `UploadModel.MultipartKeyTenant` | lambdas/api/upload/upload.go:57-67 | the first path segment of a multipart key is the tenant, and there are five segments |
| `UploadModel.TenantPrefixUnique` | lambdas/api/upload/upload.go:44-67 | a key starts with the prefix of at most one slash-free tenant |
| `UploadModel.KeysIsolateTenants` | lambdas/api/upload/upload.go:44-67 | for slash-free tenants, no key generated for one tenant lies under another tenant's prefix |
| `UploadModel.SlashInTenantCrossesPrefix` | lambdas/api/upload/upload.go:44-54 | a tenant containing `/` gets keys under another tenant's prefix |
| `UploadModel.ValidateInitiateRequest` | lambdas/api/upload/upload.go:140-151 | valid exactly when the tenant is non-empty and both sizes are positive; otherwise the first failing check in source order is reported |
| `UploadModel.PartCount` | lambdas/api/upload/upload.go:238 | the number of parts is at least one and is the least `n` with `n * partSize >= size` |
| `UploadModel.PartCountBounds` | lambdas/api/upload/upload.go:238 | ceiling division by the part size covers the file with no spare part |
| `UploadModel.ToInt32` | lambdas/api/upload/upload.go:182 | `int32` conversion wraps modulo 2^32 into the signed range and is the identity there |
| `UploadModel.PartRequest` | lambdas/api/upload/upload.go:178-188 | the presign request names the bucket, key, upload and lifetime, and the part number when it fits in 32 bits |
| `UploadModel.PresignRange` | lambdas/api/upload/upload.go:175-197 | succeeds exactly when every part from 1 to the part count presigns; the URLs are keyed by exactly those parts; on failure the first failing part is reported |
| `UploadModel.PresignParts` | lambdas/api/upload/upload.go:430-448 | succeeds exactly when every requested part presigns; the URLs are keyed by exactly the requested parts; on failure the first failing requested part, in request order, is reported with its cause |
| `UploadModel.CompletedParts` | lambdas/api/upload/upload.go:282-291 | one completed part per tag, in order, with its ETag and 32-bit part number |
| `UploadModel.ConvertPartETags` | lambdas/api/upload/upload.go:282-291 | the array filled in place holds exactly the converted tags |
| `ApiUpload.CalculatePresignExpiration` | lambdas/api/upload/upload.go:154-172 | without an expiry the lifetime is two hours; with one it is the remaining life minus five minutes, never less than five minutes |
| `ApiUpload.PresignExpirationMonotone` | lambdas/api/upload/upload.go:154-172 | a later token expiry never shortens the presigned-URL lifetime |
| `ApiUpload.NoCeilingWithExpiry` | lambdas/api/upload/upload.go:154-172 | for every token with more than two hours and five minutes left, the lifetime is the remaining life minus five minutes, which exceeds the two-hour default |
| `ApiUpload.TokenTooShort` | lambdas/api/upload/upload.go:94-100 | the upload gate fires exactly when an expiry is known and less than 900 seconds remain, and it reports the remaining seconds |
| `ApiUpload.ValidateCompleteRequest` | lambdas/api/upload/upload.go:265-279 | valid exactly when tenant, upload ID, part tags and object key are all present; otherwise the first missing one is reported |
| `ApiUpload.ValidateRefreshRequest` | lambdas/api/upload/upload.go:386-400 | valid exactly when tenant, upload ID, part numbers and object key are all present; otherwise the first missing one is reported |
| `ApiUpload.UploadService.constructor` | lambdas/api/upload/upload.go:70-84 | the service keeps the bucket and the role ARN it was given |
| `ApiUpload.UploadService.UploadFile` | lambdas/api/upload/upload.go:87-137 | checks the tenant, then the token gate, then a 900-second elevation; success exactly when all pass and the put succeeds, and the object is then stored as JSON under the tenant's dated key |
| `ApiUpload.UploadService.InitiateMultipartUpload` | lambdas/api/upload/upload.go:200-262 | validation, then a 3-hour elevation, then create; on success the upload is open and every part has a URL; a presign failure aborts the new upload again, and storage objects never change |
| `ApiUpload.UploadService.CompleteMultipartUpload` | lambdas/api/upload/upload.go:294-339 | validation, then elevation, then completion; on success the object is the assembled parts and the upload is closed; any failure leaves storage unchanged |
| `ApiUpload.UploadService.AbortMultipartUpload` | lambdas/api/upload/upload.go:342-383 | tenant and upload ID are checked, then elevation; success exactly when storage aborts an open upload, which then is closed |
| `ApiUpload.UploadService.RefreshPresignedUrls` | lambdas/api/upload/upload.go:403-453 | validation, then a 3-hour elevation; on success every requested part, and no other, has a URL with the token-derived lifetime |
| `InternalUpload.CompletePrecheck` | internal/upload/service.go:184-194 | the earlier service checks the tenant, upload ID and part tags before elevation, in that order |
| `InternalUpload.RefreshPrecheck` | internal/upload/service.go:294-304 | the earlier service checks the tenant, upload ID and part numbers before elevation, in that order |
| `InternalUpload.ChecksAgreeAcrossIterations` | internal/upload/service.go:183-352 | the earlier service's up-front checks agree with the later validators except that the object key is checked later |
| `InternalUpload.UploadService.constructor` | internal/upload/service.go:42-56 | the service keeps the bucket and the role ARN it was given |
| `InternalUpload.UploadService.UploadFile` | internal/upload/service.go:59-100 | no token gate: tenant check, 3-hour elevation, put; on success the object is stored as JSON under the tenant's dated key |
| `InternalUpload.UploadService.InitiateMultipartUpload` | internal/upload/service.go:103-180 | key under the tenant's container path, fixed two-hour URLs for parts 1 to the part count, and the new upload is aborted again when a presign fails |
| `InternalUpload.UploadService.CompleteMultipartUpload` | internal/upload/service.go:183-246 | a missing object key is reported only after elevation; on success the object is the assembled parts; any failure leaves storage unchanged |
| `InternalUpload.UploadService.AbortMultipartUpload` | internal/upload/service.go:249-290 | tenant and upload ID are checked, then elevation; success exactly when storage aborts an open upload |
| `InternalUpload.UploadService.RefreshPresignedUrls` | internal/upload/service.go:293-352 | on success every requested part, and no other, has a two-hour URL; storage is not consulted |
| `UploadLambdaContext.WithAuthorizerTenant` | lambdas/api/upload/main.go:252-258 | a non-empty string tenant in the authorizer context becomes the request's tenant; otherwise the context is unchanged |
| `UploadLambdaContext.ContextFromAuthorizer` | lambdas/api/upload/main.go:247-268 | as written: the expiry reaches the request context only when it arrives as a number |
| `UploadLambdaContext.ContextFromAuthorizerFixed` | lambdas/api/upload/main.go:247-268 | corrected: the expiry also arrives when it is a decimal string |
| `UploadLambdaContext.AsWrittenDropsExpiry` | lambdas/cognito/authorizer/main.go:165-173 | for every allowed request the as-written context has the tenant but no expiry, so URLs get the two-hour default and the upload gate never fires |
| `UploadLambdaContext.CorrectedCarriesExpiry` | lambdas/cognito/authorizer/main.go:165-173 | with the corrected reading the verified tenant and expiry both reach the request context |

## Left out

- HTTP routing, request-body JSON decoding, response encoding, logging and
  the API Gateway proxy adapter in the Lambda `main.go` files are left out.
  They only move data between the network and the modelled operations.
- `internal/auth/login.go` and `cmd/login` (interactive sign-in) are left out.
  They are not part of the tenant flow modelled here.
- `cmd/lambda/models.go` is modelled only as the request and response
  datatypes.
- The following services are parameters, not models: STS, the S3 presigner,
  OIDC discovery and signature checking, JSON decoding, JWT parsing and
  DynamoDB `GetItem`. Their internals, retries and network failures beyond a
  returned error are not modelled.
- Presigning is a deterministic function of the request. Real presigned URLs
  embed the signing time and the credentials.
- The storage model keeps only the open uploads and the objects. Uploaded
  parts, part-number limits (1 to 10000), part-size minimums and IAM
  evaluation of the tenant session are not modelled. The tenant credentials
  are not passed to storage.
- Clocks, UUID generation and environment variables (`SHARED_BUCKET`,
  `TENANT_ROLE_ARN`, `TENANT_ID`, the table name) are parameters. The
  constructor's panic on an empty role ARN is its precondition.
- Go returns zero values beside an error; the model returns only the error.
  Error message wording is kept only where it is the observable result (the
  TOKEN authorizer's messages).
- Overflow of `int64` arithmetic and `time.Duration` saturation are not
  modelled: integers are unbounded, except for the `int32` part-number
  conversion, which is modelled.
- JSON numbers are exact reals in the model. Go decodes them into `float64`,
  which rounds integers above 2^53, so an `exp` claim that large may differ
  by the rounding in Go.
- Json.TruncateToInt: does not model the undefined result of converting an
  out-of-range float to `int64`.
- `strings.ToLower` is modelled on ASCII only. HTTP header canonicalisation
  is not modelled: headers are looked up by exact name.
- `ApiGateway.Allows` is exact string matching. Wildcard resources and
  actions are not modelled.
- Go maps are references. The pre-token model makes claim maps heap objects,
  but the rest of the event is a value.

## Findings

| source | as written | input that shows it | evidently intended | confidence | as-written member | corrected member |
|---|---|---|---|---|---|---|
| lambdas/api/upload/main.go:261-264 | the upload Lambda reads `token_expiration` from the authorizer context only as a `float64`, but the authorizer writes it as a decimal string (lambdas/cognito/authorizer/main.go:171) | any token the authorizer allows, e.g. one with `exp` 1700000000, reaches the Lambda with `token_expiration` = `"1700000000"` | the expiry reaches the request context, so presigned URLs track the token's life and the 900-second upload gate can fire | not executed; high | `UploadLambdaContext.ContextFromAuthorizer` (shown by `UploadLambdaContext.AsWrittenDropsExpiry`) | `UploadLambdaContext.ContextFromAuthorizerFixed` (shown by `UploadLambdaContext.CorrectedCarriesExpiry`) |
