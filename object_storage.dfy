/**
 * The object store the upload services drive, seen through the calls they
 * make: single-object writes and the multipart lifecycle (create, abort,
 * complete). The outcome of each call, as the store would report it, is a
 * parameter; the store's state records which multipart uploads are open and
 * which objects exist.
 */
module ObjectStorage {
  import opened Wrappers
  import opened Base64Url

  datatype UploadRef = UploadRef(bucket: string, key: string, uploadId: string)

  datatype ObjectRef = ObjectRef(bucket: string, key: string)

  /** `types.CompletedPart`; the part number is the `int32` the SDK carries. */
  datatype CompletedPart = CompletedPart(eTag: string, partNumber: int)

  /** What an object holds: bytes written in one request, or the listed parts of a completed upload. */
  datatype Body =
    | Payload(bytes: seq<byte>, contentType: string)
    | Assembled(uploadId: string, parts: seq<CompletedPart>)

  /** The error S3 gives for an upload ID it does not know (never created, aborted or completed). */
  const NoSuchUpload: string := "NoSuchUpload"

  class Storage {
    var open: set<UploadRef>
    var objects: map<ObjectRef, Body>

    constructor ()
      ensures open == {} && objects == map[]
    {
      open := {};
      objects := map[];
    }

    /** `PutObject`: on success the object holds exactly the bytes sent; on failure nothing changes. */
    method PutObject(bucket: string, key: string, bytes: seq<byte>, contentType: string, answer: Option<string>)
      returns (err: Option<string>)
      modifies this
      ensures err == answer
      ensures open == old(open)
      ensures answer.None? ==> objects == old(objects)[ObjectRef(bucket, key) := Payload(bytes, contentType)]
      ensures answer.Some? ==> objects == old(objects)
    {
      err := answer;
      if answer.None? {
        objects := objects[ObjectRef(bucket, key) := Payload(bytes, contentType)];
      }
    }

    /**
     * `CreateMultipartUpload`: on success the store hands out an upload ID it
     * has not handed out for any open upload, and that upload is now open.
     */
    method CreateMultipartUpload(bucket: string, key: string, answer: Result<string, string>)
      returns (r: Result<string, string>)
      requires answer.Ok? ==> forall u :: u in open ==> u.uploadId != answer.value
      modifies this
      ensures r == answer
      ensures objects == old(objects)
      ensures answer.Ok? ==> open == old(open) + {UploadRef(bucket, key, answer.value)}
      ensures answer.Ok? ==> UploadRef(bucket, key, answer.value) !in old(open)
      ensures answer.Err? ==> open == old(open)
    {
      r := answer;
      if answer.Ok? {
        open := open + {UploadRef(bucket, key, answer.value)};
      }
    }

    /**
     * `AbortMultipartUpload`: an upload that is not open is reported as
     * NoSuchUpload; otherwise the answer decides, and on success the upload
     * is no longer open.
     */
    method AbortMultipartUpload(bucket: string, key: string, uploadId: string, answer: Option<string>)
      returns (err: Option<string>)
      modifies this
      ensures UploadRef(bucket, key, uploadId) !in old(open) ==> err == Some(NoSuchUpload)
      ensures UploadRef(bucket, key, uploadId) in old(open) ==> err == answer
      ensures objects == old(objects)
      ensures err.None? ==> open == old(open) - {UploadRef(bucket, key, uploadId)}
      ensures err.Some? ==> open == old(open)
    {
      if UploadRef(bucket, key, uploadId) !in open {
        err := Some(NoSuchUpload);
      } else {
        err := answer;
        if answer.None? {
          open := open - {UploadRef(bucket, key, uploadId)};
        }
      }
    }

    /**
     * `CompleteMultipartUpload`: an upload that is not open is reported as
     * NoSuchUpload; otherwise the answer (the object's location) decides, and
     * on success the upload closes and the object holds the listed parts.
     */
    method CompleteMultipartUpload(bucket: string, key: string, uploadId: string, parts: seq<CompletedPart>,
                                   answer: Result<string, string>)
      returns (r: Result<string, string>)
      modifies this
      ensures UploadRef(bucket, key, uploadId) !in old(open) ==> r == Err(NoSuchUpload)
      ensures UploadRef(bucket, key, uploadId) in old(open) ==> r == answer
      ensures r.Ok? ==> open == old(open) - {UploadRef(bucket, key, uploadId)}
      ensures r.Ok? ==> objects == old(objects)[ObjectRef(bucket, key) := Assembled(uploadId, parts)]
      ensures r.Err? ==> open == old(open) && objects == old(objects)
    {
      if UploadRef(bucket, key, uploadId) !in open {
        r := Err(NoSuchUpload);
      } else {
        r := answer;
        if answer.Ok? {
          open := open - {UploadRef(bucket, key, uploadId)};
          objects := objects[ObjectRef(bucket, key) := Assembled(uploadId, parts)];
        }
      }
    }
  }
}
