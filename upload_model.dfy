/**
 * What the two upload-service iterations share: the request and response
 * shapes, the errors, tenant-prefixed object keys, the part count, the
 * per-part presign requests and the loops that collect their URLs, and the
 * conversion of part ETags.
 */
module UploadModel {
  import opened Wrappers
  import opened Strings
  import opened ObjectStorage
  import opened Sts

  datatype InitiateUploadRequest = InitiateUploadRequest(containerKey: string, size: int, partSize: int)
  datatype InitiateUploadResponse = InitiateUploadResponse(presignedUrls: map<int, string>, uploadId: string, objectKey: string)
  datatype PartTag = PartTag(partNumber: int, eTag: string)
  datatype CompleteUploadRequest = CompleteUploadRequest(uploadId: string, objectKey: string, partETags: seq<PartTag>)
  datatype CompleteUploadResponse = CompleteUploadResponse(objectKey: string, location: string)
  datatype AbortUploadRequest = AbortUploadRequest(uploadId: string, objectKey: string)
  datatype RefreshUploadRequest = RefreshUploadRequest(uploadId: string, objectKey: string, partNumbers: seq<int>)
  datatype RefreshUploadResponse = RefreshUploadResponse(presignedUrls: map<int, string>)

  datatype UploadError =
    | EmptyTenantId
    | NonPositiveSize
    | NonPositivePartSize
    | EmptyUploadId
    | EmptyPartETags
    | EmptyPartNumbers
    | EmptyObjectKey
    | TokenExpiresTooSoon(remaining: int)
    | CredentialFailure(reason: CredentialError)
    | CreateFailed(cause: string)
    | PresignFailed(part: int, cause: string)
    | PutFailed(cause: string)
    | CompleteFailed(cause: string)
    | AbortFailed(cause: string)

  /** A calendar date in UTC. */
  datatype Date = Date(year: int, month: int, day: int)

  /** One reading of `time.Now()`: nanoseconds since the Unix epoch and its UTC date. */
  datatype Clock = Clock(unixNanos: int, date: Date)

  const NanosPerSecond: int := 1_000_000_000

  /** `time.Now().Unix()`. */
  function UnixSeconds(c: Clock): int {
    c.unixNanos / NanosPerSecond
  }

  // ---------------------------------------------------------------- keys

  /** `%d/%02d/%02d` of year, month and day. */
  function DatePath(d: Date): (p: string)
    ensures Split(p, '/') == [IntToString(d.year), Pad2(d.month), Pad2(d.day)]
  {
    var y, m, dd := IntToString(d.year), Pad2(d.month), Pad2(d.day);
    assert '/' !in y && '/' !in m && '/' !in dd;
    JoinCons(m, [dd], '/');
    assert [m] + [dd] == [m, dd];
    JoinCons(y, [m, dd], '/');
    assert [y] + [m, dd] == [y, m, dd];
    assert Join([dd], '/') == dd;
    assert Join([y, m, dd], '/') == y + "/" + m + "/" + dd;
    SplitJoin([y, m, dd], '/');
    y + "/" + m + "/" + dd
  }

  /** `generateS3Key`: `<tenant>/YYYY/MM/DD/<id>.json`. */
  function SingleUploadKey(tenantId: string, date: Date, fileId: string): (key: string)
    ensures HasPrefix(key, tenantId + "/")
    ensures HasSuffix(key, fileId + ".json")
  {
    var key := tenantId + "/" + DatePath(date) + "/" + fileId + ".json";
    assert key[..|tenantId + "/"|] == tenantId + "/";
    assert key[|key| - |fileId + ".json"|..] == fileId + ".json";
    key
  }

  /** `generateS3KeyForMultipart`: `<tenant>/YYYY/MM/DD/<id>.raw`. */
  function MultipartKey(tenantId: string, date: Date, fileId: string): (key: string)
    ensures HasPrefix(key, tenantId + "/")
    ensures HasSuffix(key, fileId + ".raw")
    ensures key != SingleUploadKey(tenantId, date, fileId)
  {
    var key := tenantId + "/" + DatePath(date) + "/" + fileId + ".raw";
    assert key[..|tenantId + "/"|] == tenantId + "/";
    assert key[|key| - |fileId + ".raw"|..] == fileId + ".raw";
    assert |key| + 1 == |SingleUploadKey(tenantId, date, fileId)|;
    key
  }

  /** The key of the container-keyed iteration: `<tenant>/<containerKey>/<id>`, the container unchecked. */
  function ContainerObjectKey(tenantId: string, containerKey: string, fileId: string): (key: string)
    ensures HasPrefix(key, tenantId + "/")
    ensures HasSuffix(key, "/" + fileId)
  {
    var key := tenantId + "/" + containerKey + "/" + fileId;
    assert key[..|tenantId + "/"|] == tenantId + "/";
    assert key[|key| - |"/" + fileId|..] == "/" + fileId;
    key
  }

  /** An empty container key leaves an empty path segment. */
  lemma EmptyContainerKey(tenantId: string, fileId: string)
    ensures ContainerObjectKey(tenantId, "", fileId) == tenantId + "//" + fileId
  {
  }

  /** Joining a piece in front of at least one more piece puts one separator between them. */
  lemma JoinCons(p: string, rest: seq<string>, sep: char)
    requires |rest| >= 1
    ensures Join([p] + rest, sep) == p + [sep] + Join(rest, sep)
  {
    assert ([p] + rest)[1..] == rest;
  }

  /** The five segments of a dated key, joined with '/', spell the key. */
  lemma JoinDatedKey(t: string, y: string, m: string, d: string, f: string)
    ensures Join([t, y, m, d, f], '/') == t + "/" + (y + "/" + m + "/" + d) + "/" + f
  {
    JoinCons(d, [f], '/');
    assert [d] + [f] == [d, f];
    JoinCons(m, [d, f], '/');
    assert [m] + [d, f] == [m, d, f];
    JoinCons(y, [m, d, f], '/');
    assert [y] + [m, d, f] == [y, m, d, f];
    JoinCons(t, [y, m, d, f], '/');
    assert [t] + [y, m, d, f] == [t, y, m, d, f];
  }

  /**
   * For a tenant and file ID without '/', a dated key splits into exactly the
   * tenant, the year, the zero-padded month and day, and the file name.
   */
  lemma {:induction false} DatedKeySegments(tenantId: string, date: Date, fileId: string, ext: string)
    requires '/' !in tenantId && '/' !in fileId && '/' !in ext
    ensures Split(tenantId + "/" + DatePath(date) + "/" + fileId + ext, '/') ==
      [tenantId, IntToString(date.year), Pad2(date.month), Pad2(date.day), fileId + ext]
  {
    var y, m, d, f := IntToString(date.year), Pad2(date.month), Pad2(date.day), fileId + ext;
    var parts := [tenantId, y, m, d, f];
    assert '/' !in f;
    JoinDatedKey(tenantId, y, m, d, f);
    assert tenantId + "/" + DatePath(date) + "/" + fileId + ext == Join(parts, '/');
    SplitJoin(parts, '/');
  }

  /** The tenant is recovered from a single-upload key as its first segment. */
  lemma SingleUploadKeyTenant(tenantId: string, date: Date, fileId: string)
    requires '/' !in tenantId && '/' !in fileId
    ensures Split(SingleUploadKey(tenantId, date, fileId), '/')[0] == tenantId
    ensures |Split(SingleUploadKey(tenantId, date, fileId), '/')| == 5
  {
    DatedKeySegments(tenantId, date, fileId, ".json");
  }

  /** The tenant is recovered from a multipart key as its first segment. */
  lemma MultipartKeyTenant(tenantId: string, date: Date, fileId: string)
    requires '/' !in tenantId && '/' !in fileId
    ensures Split(MultipartKey(tenantId, date, fileId), '/')[0] == tenantId
    ensures |Split(MultipartKey(tenantId, date, fileId), '/')| == 5
  {
    DatedKeySegments(tenantId, date, fileId, ".raw");
  }

  /** Under a slash-free tenant's prefix, the key's first '/' comes right after the tenant. */
  lemma FirstSlashAfterTenant(key: string, t: string)
    requires '/' !in t && HasPrefix(key, t + "/")
    ensures key[|t|] == '/'
    ensures forall i :: 0 <= i < |t| ==> key[i] != '/'
  {
    assert key[..|t| + 1] == t + "/";
    assert forall i :: 0 <= i < |t| ==> key[i] == t[i];
  }

  /** Two slash-free tenants whose prefixes both begin a key are the same tenant. */
  lemma TenantPrefixUnique(key: string, t1: string, t2: string)
    requires '/' !in t1 && '/' !in t2
    requires HasPrefix(key, t1 + "/") && HasPrefix(key, t2 + "/")
    ensures t1 == t2
  {
    FirstSlashAfterTenant(key, t1);
    FirstSlashAfterTenant(key, t2);
    assert |t1| == |t2|;
    assert t1 == key[..|t1|] == t2;
  }

  /**
   * Tenant isolation of object keys: for tenants without '/', no key made for
   * one tenant lies under another tenant's prefix.
   */
  lemma KeysIsolateTenants(t1: string, t2: string, date: Date, fileId: string, containerKey: string)
    requires '/' !in t1 && '/' !in t2 && t1 != t2
    ensures !HasPrefix(SingleUploadKey(t2, date, fileId), t1 + "/")
    ensures !HasPrefix(MultipartKey(t2, date, fileId), t1 + "/")
    ensures !HasPrefix(ContainerObjectKey(t2, containerKey, fileId), t1 + "/")
  {
    if HasPrefix(SingleUploadKey(t2, date, fileId), t1 + "/") {
      TenantPrefixUnique(SingleUploadKey(t2, date, fileId), t1, t2);
    }
    if HasPrefix(MultipartKey(t2, date, fileId), t1 + "/") {
      TenantPrefixUnique(MultipartKey(t2, date, fileId), t1, t2);
    }
    if HasPrefix(ContainerObjectKey(t2, containerKey, fileId), t1 + "/") {
      TenantPrefixUnique(ContainerObjectKey(t2, containerKey, fileId), t1, t2);
    }
  }

  /** Without that restriction isolation fails: tenant "a/b" writes under tenant "a"'s prefix. */
  lemma SlashInTenantCrossesPrefix(date: Date, fileId: string, containerKey: string)
    ensures HasPrefix(SingleUploadKey("a/b", date, fileId), "a" + "/")
    ensures HasPrefix(ContainerObjectKey("a/b", containerKey, fileId), "a" + "/")
  {
    assert SingleUploadKey("a/b", date, fileId)[..2] == "a/";
    assert ContainerObjectKey("a/b", containerKey, fileId)[..2] == "a/";
  }

  // ---------------------------------------------------------------- validation

  /** The initiate checks of both iterations: tenant, then size, then part size. */
  function ValidateInitiateRequest(tenantId: string, req: InitiateUploadRequest): (r: Option<UploadError>)
    ensures r.None? <==> tenantId != "" && req.size > 0 && req.partSize > 0
    ensures tenantId == "" ==> r == Some(EmptyTenantId)
    ensures tenantId != "" && req.size <= 0 ==> r == Some(NonPositiveSize)
    ensures tenantId != "" && req.size > 0 && req.partSize <= 0 ==> r == Some(NonPositivePartSize)
  {
    if tenantId == "" then Some(EmptyTenantId)
    else if req.size <= 0 then Some(NonPositiveSize)
    else if req.partSize <= 0 then Some(NonPositivePartSize)
    else None
  }

  // ---------------------------------------------------------------- parts

  /** `(size + partSize - 1) / partSize`: the fewest parts of `partSize` bytes that hold `size` bytes. */
  function PartCount(size: int, partSize: int): (n: int)
    requires size > 0 && partSize > 0
    ensures n >= 1
    ensures (n - 1) * partSize < size <= n * partSize
  {
    var n := (size + partSize - 1) / partSize;
    PartCountBounds(size, partSize, n);
    n
  }

  lemma PartCountBounds(size: int, partSize: int, n: int)
    requires size > 0 && partSize > 0 && n == (size + partSize - 1) / partSize
    ensures n >= 1
    ensures (n - 1) * partSize < size <= n * partSize
  {
    var r := (size + partSize - 1) % partSize;
    assert n * partSize + r == size + partSize - 1;
    assert 0 <= r < partSize;
  }

  /** Go's `int32(x)`: the low 32 bits read as two's complement. */
  function ToInt32(x: int): (r: int)
    ensures -0x8000_0000 <= r < 0x8000_0000
    ensures (x - r) % 0x1_0000_0000 == 0
    ensures -0x8000_0000 <= x < 0x8000_0000 ==> r == x
  {
    var m := x % 0x1_0000_0000;
    if m >= 0x8000_0000 then m - 0x1_0000_0000 else m
  }

  /** `s3.UploadPartInput` with `PresignOptions.Expires` (a duration in nanoseconds). */
  datatype PresignRequest = PresignRequest(bucket: string, key: string, partNumber: int, uploadId: string, expires: int)

  /** `PresignUploadPart`: the URL for a request, or the reason none was produced. */
  type Presigner = PresignRequest -> Result<string, string>

  function PartRequest(bucket: string, key: string, uploadId: string, part: int, expires: int): (req: PresignRequest)
    ensures req.bucket == bucket && req.key == key && req.uploadId == uploadId && req.expires == expires
    ensures -0x8000_0000 <= part < 0x8000_0000 ==> req.partNumber == part
  {
    PresignRequest(bucket, key, ToInt32(part), uploadId, expires)
  }

  /**
   * The presign loop over parts `1..numParts`: either every part has a URL and
   * the map's keys are exactly those parts, or the first part that could not be
   * presigned is named with its cause.
   */
  method PresignRange(bucket: string, key: string, uploadId: string, numParts: int, expires: int, presign: Presigner)
    returns (r: Result<map<int, string>, UploadError>)
    ensures r.Ok? <==> forall i :: 1 <= i <= numParts ==> presign(PartRequest(bucket, key, uploadId, i, expires)).Ok?
    ensures r.Ok? ==> forall i :: i in r.value <==> 1 <= i <= numParts
    ensures r.Ok? ==> forall i :: 1 <= i <= numParts ==>
      && presign(PartRequest(bucket, key, uploadId, i, expires)).Ok?
      && r.value[i] == presign(PartRequest(bucket, key, uploadId, i, expires)).value
    ensures r.Err? ==>
      && r.error.PresignFailed?
      && 1 <= r.error.part <= numParts
      && presign(PartRequest(bucket, key, uploadId, r.error.part, expires)) == Err(r.error.cause)
      && forall j :: 1 <= j < r.error.part ==> presign(PartRequest(bucket, key, uploadId, j, expires)).Ok?
  {
    var urls: map<int, string> := map[];
    var i := 1;
    while i <= numParts
      invariant 1 <= i && (i == 1 || i <= numParts + 1)
      invariant forall j :: 1 <= j < i ==> presign(PartRequest(bucket, key, uploadId, j, expires)).Ok?
      invariant forall j :: j in urls <==> 1 <= j < i
      invariant forall j :: 1 <= j < i ==> urls[j] == presign(PartRequest(bucket, key, uploadId, j, expires)).value
      decreases numParts - i
    {
      var answer := presign(PartRequest(bucket, key, uploadId, i, expires));
      if answer.Err? {
        return Err(PresignFailed(i, answer.error));
      }
      urls := urls[i := answer.value];
      i := i + 1;
    }
    return Ok(urls);
  }

  /**
   * The presign loop over requested part numbers: either each requested part
   * has a URL and the map's keys are exactly the distinct requested parts, or
   * the first requested part that could not be presigned is named.
   */
  method PresignParts(bucket: string, key: string, uploadId: string, parts: seq<int>, expires: int, presign: Presigner)
    returns (r: Result<map<int, string>, UploadError>)
    ensures r.Ok? <==> forall k :: 0 <= k < |parts| ==> presign(PartRequest(bucket, key, uploadId, parts[k], expires)).Ok?
    ensures r.Ok? ==> forall p :: p in r.value <==> p in parts
    ensures r.Ok? ==> forall p :: p in r.value ==>
      && presign(PartRequest(bucket, key, uploadId, p, expires)).Ok?
      && r.value[p] == presign(PartRequest(bucket, key, uploadId, p, expires)).value
    ensures r.Err? ==>
      && r.error.PresignFailed?
      && exists k :: 0 <= k < |parts| && parts[k] == r.error.part
           && presign(PartRequest(bucket, key, uploadId, parts[k], expires)) == Err(r.error.cause)
           && forall j :: 0 <= j < k ==> presign(PartRequest(bucket, key, uploadId, parts[j], expires)).Ok?
  {
    var urls: map<int, string> := map[];
    var k := 0;
    while k < |parts|
      invariant 0 <= k <= |parts|
      invariant forall j :: 0 <= j < k ==> presign(PartRequest(bucket, key, uploadId, parts[j], expires)).Ok?
      invariant forall p :: p in urls <==> p in parts[..k]
      invariant forall p :: p in urls ==>
        presign(PartRequest(bucket, key, uploadId, p, expires)).Ok?
        && urls[p] == presign(PartRequest(bucket, key, uploadId, p, expires)).value
    {
      var answer := presign(PartRequest(bucket, key, uploadId, parts[k], expires));
      if answer.Err? {
        return Err(PresignFailed(parts[k], answer.error));
      }
      assert parts[..k + 1] == parts[..k] + [parts[k]];
      urls := urls[parts[k] := answer.value];
      k := k + 1;
    }
    assert parts[..k] == parts;
    return Ok(urls);
  }

  /** The SDK form of one part tag. */
  function CompletedPartOf(tag: PartTag): (c: CompletedPart)
    ensures c.eTag == tag.eTag
    ensures -0x8000_0000 <= tag.partNumber < 0x8000_0000 ==> c.partNumber == tag.partNumber
  {
    CompletedPart(tag.eTag, ToInt32(tag.partNumber))
  }

  /** The converted tags, in the order given. */
  function CompletedParts(tags: seq<PartTag>): (parts: seq<CompletedPart>)
    ensures |parts| == |tags|
    ensures forall i :: 0 <= i < |tags| ==> parts[i] == CompletedPartOf(tags[i])
  {
    seq(|tags|, i requires 0 <= i < |tags| => CompletedPartOf(tags[i]))
  }

  /** `convertPartETags`: a new slice of the same length, each part converted in place of its tag. */
  method ConvertPartETags(tags: seq<PartTag>) returns (parts: array<CompletedPart>)
    ensures fresh(parts)
    ensures parts.Length == |tags|
    ensures forall i :: 0 <= i < |tags| ==> parts[i] == CompletedPartOf(tags[i])
    ensures parts[..] == CompletedParts(tags)
  {
    parts := new CompletedPart[|tags|](i => CompletedPart("", 0));
    for i := 0 to |tags|
      invariant forall j :: 0 <= j < i ==> parts[j] == CompletedPartOf(tags[j])
    {
      parts[i] := CompletedPartOf(tags[i]);
    }
  }
}
