/** Blobs: the listing, the accessor by id or by file name, contents,
    download, deletion and upload. */
module Blobs {
  import opened Wrappers
  import opened Strings
  import opened Paths
  import opened Identity
  import opened Curator

  const BlobsPath := "/rest/blob/"

  /** The params of get_blobs: the file name only when it is given. */
  function BlobsRequest(filename: Option<string>): (r: Request)
    ensures r.verb == GET && r.path == BlobsPath
    ensures "filename" in r.params <==> filename.Some?
    ensures filename.Some? ==> r.params["filename"] == VStr(filename.value)
  {
    Get(BlobsPath, if filename.Some? then map["filename" := VStr(filename.value)] else map[])
  }

  function FilenameMask(filename: Option<string>): Blob -> bool {
    (b: Blob) => filename.Some? ==> b.filename == filename.value
  }

  /** get_blobs: the blobs with the file name, or all of them, in order. */
  function GetBlobs(server: Server, filename: Option<string>): (r: seq<Blob>)
    ensures r == Filter(server.blobs, FilenameMask(filename))
    ensures forall b :: b in r <==> b in server.blobs && (filename.Some? ==> b.filename == filename.value)
  {
    var req := BlobsRequest(filename);
    SameBlobFilter(server.blobs, req, filename);
    ListBlobs(server, req)
  }

  lemma {:induction false} SameBlobFilter(rows: seq<Blob>, req: Request, filename: Option<string>)
    requires "filename" in req.params <==> filename.Some?
    requires filename.Some? ==> req.params["filename"] == VStr(filename.value)
    ensures Filter(rows, BlobFilter(req)) == Filter(rows, FilenameMask(filename))
    decreases |rows|
  {
    if rows != [] {
      assert BlobFilter(req)(rows[0]) == FilenameMask(filename)(rows[0]);
      SameBlobFilter(rows[1..], req, filename);
    }
  }

  const BlobNoun := Noun("blobs", "blobs")

  /** `/rest/blob/{id}` (no trailing slash). */
  function BlobPath(id: Id): string {
    BlobsPath + IdText(id)
  }

  function DownloadPath(id: Id): string {
    BlobsPath + "download/" + IdText(id)
  }

  /** get_blob: by id a direct GET of the blob; otherwise the one blob the
      listing by file name holds. */
  function GetBlob(server: Server, id: Option<Id>, filename: Option<string>): (r: Result<Blob>)
    ensures id.Some? && filename.Some? ==> r == Err(ValueError("id and filename cannot both be given"))
    ensures id.Some? && filename.None? ==> r == FindBlob(server.blobs, id.value)
    ensures id.None? ==> r == SelectOne(GetBlobs(server, filename), BlobNoun)
  {
    if id.None? then SelectOne(GetBlobs(server, filename), BlobNoun)
    else if filename.Some? then Err(ValueError("id and filename cannot both be given"))
    else FindBlob(server.blobs, id.value)
  }

  /** The one blob with a file name is the one returned. */
  lemma {:induction false} GetBlobOfUniqueName(server: Server, filename: string, i: nat)
    requires UniqueMatch(server.blobs, FilenameMask(Some(filename)), i)
    ensures GetBlob(server, None, Some(filename)) == Ok(server.blobs[i])
  {
    FilterOfUnique(server.blobs, FilenameMask(Some(filename)), i);
  }

  /** No blob with the file name is "No matching blobs found". */
  lemma GetBlobOfUnknownName(server: Server, filename: string)
    requires forall b :: b in server.blobs ==> b.filename != filename
    ensures GetBlob(server, None, Some(filename)) == Err(NoMatch(BlobNoun))
  {
    FilterNone(server.blobs, FilenameMask(Some(filename)));
  }

  /** The blob argument of the contents, download and delete operations:
      a blob excludes an id and a file name; without one, get_blob decides. */
  function BlobOf(server: Server, blob: Option<Blob>, id: Option<Id>, filename: Option<string>): (r: Result<Blob>)
    ensures blob.Some? && id.Some? ==> r == Err(ValueError("blob and id cannot both be given"))
    ensures blob.Some? && id.None? && filename.Some? ==> r == Err(ValueError("blob and filename cannot both be given"))
    ensures blob.Some? && id.None? && filename.None? ==> r == Ok(blob.value)
    ensures blob.None? ==> r == GetBlob(server, id, filename)
  {
    if blob.None? then GetBlob(server, id, filename)
    else if id.Some? then Err(ValueError("blob and id cannot both be given"))
    else if filename.Some? then Err(ValueError("blob and filename cannot both be given"))
    else Ok(blob.value)
  }

  /** The GET get_blob_contents sends for the blob's bytes. */
  function ContentsRequest(server: Server, blob: Option<Blob>, id: Option<Id>, filename: Option<string>)
    : (r: Result<Request>)
    ensures r.Ok? <==> BlobOf(server, blob, id, filename).Ok?
    ensures r.Ok? ==> r.value == Get(DownloadPath(BlobOf(server, blob, id, filename).value.id), map[])
  {
    var b :- BlobOf(server, blob, id, filename);
    Ok(Get(DownloadPath(b.id), map[]))
  }

  /** get_blob_contents: the bytes at the blob's download URL. */
  function GetBlobContents(server: Server, blob: Option<Blob>, id: Option<Id>, filename: Option<string>)
    : (r: Result<seq<byte>>)
    ensures r.Ok? ==> BlobOf(server, blob, id, filename).Ok? &&
                      var b := BlobOf(server, blob, id, filename).value;
                      b.id in server.blobContents && r.value == server.blobContents[b.id]
    ensures BlobOf(server, blob, id, filename).Err? ==> r == Err(BlobOf(server, blob, id, filename).error)
  {
    var b :- BlobOf(server, blob, id, filename);
    FetchBlobContent(server, b.id)
  }

  /** download_blob: the save path `Path(savedir, blob.filename)` is opened
      for writing (created empty) before the contents are fetched into it. */
  function DownloadBlob(server: Server, fs: FileSystem, blob: Option<Blob>, id: Option<Id>, filename: Option<string>,
                        savedir: string): (r: (FileSystem, Outcome))
    ensures BlobOf(server, blob, id, filename).Err? ==> r == (fs, Fail(BlobOf(server, blob, id, filename).error))
    ensures BlobOf(server, blob, id, filename).Ok? ==>
      var b := BlobOf(server, blob, id, filename).value;
      var path := JoinPath(savedir, b.filename);
      var c := FetchBlobContent(server, b.id);
      r.0.files.Keys == fs.files.Keys + {path} &&
      (forall p :: p in fs.files && p != path ==> r.0.files[p] == fs.files[p]) &&
      r.0.files[path] == (if c.Ok? then c.value else []) &&
      r.1 == (if c.Ok? then Pass else Fail(c.error))
  {
    match BlobOf(server, blob, id, filename)
    case Err(e) => (fs, Fail(e))
    case Ok(b) =>
      var path := JoinPath(savedir, b.filename);
      var c := FetchBlobContent(server, b.id);
      (FileSystem(fs.files[path := if c.Ok? then c.value else []]), if c.Ok? then Pass else Fail(c.error))
  }

  /** A blob saved by download_blob is read back unchanged from the saved
      path, which carries the blob's file name. */
  lemma DownloadRoundTrip(server: Server, fs: FileSystem, b: Blob, savedir: string)
    requires b.id in server.blobContents
    requires b.filename != [] && NoSlash(b.filename) && b.filename != "."
    ensures var (fs2, outcome) := DownloadBlob(server, fs, Some(b), None, None, savedir);
            outcome == Pass &&
            Name(JoinPath(savedir, b.filename)) == b.filename &&
            ReadFile(fs2, JoinPath(savedir, b.filename)) == Ok(server.blobContents[b.id]) &&
            GetBlobContents(server, Some(b), None, None) == Ok(server.blobContents[b.id])
  {
    NameOfJoin(savedir, b.filename);
  }

  /** delete_blob: a DELETE of `/rest/blob/{id}`. */
  function DeleteBlob(server: Server, blob: Option<Blob>, id: Option<Id>, filename: Option<string>)
    : (r: Result<Request>)
    ensures r.Ok? <==> BlobOf(server, blob, id, filename).Ok?
    ensures r.Ok? ==> r.value == Delete(BlobPath(BlobOf(server, blob, id, filename).value.id))
  {
    var b :- BlobOf(server, blob, id, filename);
    Ok(Delete(BlobPath(b.id)))
  }

  // ----- upload_blob -----

  /** The POST of upload_blob: the bytes under `blob`, the name under
      `filename`.  Without `blobbytes` the file is opened. */
  function UploadRequest(fs: FileSystem, filename: string, blobbytes: Option<seq<byte>>): (r: Result<Request>)
    ensures blobbytes.Some? ==> r.Ok? && r.value.files == map["blob" := VBytes(blobbytes.value)]
    ensures blobbytes.None? ==> (r.Ok? <==> filename in fs.files)
    ensures blobbytes.None? && r.Ok? ==> r.value.files == map["blob" := VBytes(fs.files[filename])]
    ensures r.Err? ==> r == Err(FileNotFound(filename))
    ensures r.Ok? ==> r.value.verb == POST && r.value.path == BlobsPath && r.value.params == map[] &&
                      r.value.data == map["filename" := VStr(filename)]
  {
    var bytes :- if blobbytes.Some? then Ok(blobbytes.value) else ReadFile(fs, filename);
    Ok(Request(POST, BlobsPath, map[], map["filename" := VStr(filename)], map["blob" := VBytes(bytes)]))
  }

  /** The server's answer to the upload: its status and the blob it made. */
  datatype Response = Response(status: int, created: Blob)

  /** What the POST itself raises: raise_for_status on a status of 400 or more. */
  function Sent(status: int): Outcome {
    if status >= 400 then Fail(HttpError(status)) else Pass
  }

  /** upload_blob as written: the response's blob is bound only inside the
      `verbose and status == 201` branch, so any other successful upload
      fails reading the unbound `blob` at the return. */
  function UploadBlobAsWritten(fs: FileSystem, filename: string, blobbytes: Option<seq<byte>>, verbose: bool,
                               response: Response): (r: Result<string>)
  {
    var _ :- UploadRequest(fs, filename, blobbytes);
    if Sent(response.status).Fail? then Err(Sent(response.status).error)
    else if verbose && response.status == 201 then Ok(response.created.handle)
    else Err(UnboundLocal("blob"))
  }

  /** The upload as written fails after a successful POST unless it is
      verbose and answered 201. */
  lemma UploadBlobUnbound(fs: FileSystem, filename: string, blobbytes: Option<seq<byte>>, verbose: bool,
                          response: Response)
    requires UploadRequest(fs, filename, blobbytes).Ok?
    requires response.status < 400
    ensures UploadBlobAsWritten(fs, filename, blobbytes, verbose, response).Ok? <==>
            verbose && response.status == 201
    ensures !verbose ==> UploadBlobAsWritten(fs, filename, blobbytes, verbose, response) == Err(UnboundLocal("blob"))
  {
  }

  /** upload_blob as intended: the handle of the blob the server made,
      whatever `verbose` says. */
  function UploadBlob(fs: FileSystem, filename: string, blobbytes: Option<seq<byte>>, verbose: bool,
                      response: Response): (r: Result<string>)
    ensures r.Ok? <==> UploadRequest(fs, filename, blobbytes).Ok? && response.status < 400
    ensures r.Ok? ==> r.value == response.created.handle
    ensures UploadRequest(fs, filename, blobbytes).Ok? && response.status >= 400 ==> r == Err(HttpError(response.status))
  {
    var _ :- UploadRequest(fs, filename, blobbytes);
    if Sent(response.status).Fail? then Err(Sent(response.status).error)
    else Ok(response.created.handle)
  }

  /** The corrected upload agrees with the written one where that one
      returns, and does not depend on `verbose`. */
  lemma UploadBlobAgrees(fs: FileSystem, filename: string, blobbytes: Option<seq<byte>>, verbose: bool,
                         response: Response)
    ensures UploadBlobAsWritten(fs, filename, blobbytes, verbose, response).Ok? ==>
            UploadBlob(fs, filename, blobbytes, verbose, response) == UploadBlobAsWritten(fs, filename, blobbytes, verbose, response)
    ensures UploadBlob(fs, filename, blobbytes, verbose, response) == UploadBlob(fs, filename, blobbytes, !verbose, response)
  {
  }
}
