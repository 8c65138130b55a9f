/** The entities a curator serves, the requests the client sends, and the
    server itself as a snapshot value that answers listing requests. */
module Curator {
  import opened Wrappers
  import opened Strings
  import opened Identity
  import opened Prologue

  /** A database id: newer servers use integers, older ones strings. */
  datatype Id = StrId(s: string) | IntId(n: int)

  /** An id as an f-string writes it into a URL. */
  function IdText(id: Id): (r: string)
    ensures id.StrId? ==> r == id.s
    ensures id.IntId? ==> ParseDecimal(r) == id.n
  {
    match id
    case StrId(s) => s
    case IntId(n) => DecimalRoundTrip(n); DecimalString(n)
  }

  /** An argument the source compares with `is True` / `is False`: either
      bool, or some other object with its truth value. */
  datatype Flag = Yes | No | NotBool(truthy: bool)

  function Truthy(f: Flag): bool {
    match f
    case Yes => true
    case No => false
    case NotBool(t) => t
  }

  /** A value in a request's params, data or files dict. */
  datatype Value =
    | VStr(s: string)
    | VStrs(items: seq<string>)
    | VBool(b: bool)
    | VInt(i: int)
    | VId(id: Id)
    | VIdRefs(ids: seq<Id>)     // a list of {"id": id} dicts
    | VPayload(p: Payload)
    | VBytes(bytes: seq<byte>)
    | VNone                     // Python None

  function OptStr(s: Option<string>): Value {
    if s.Some? then VStr(s.value) else VNone
  }

  datatype Verb = GET | POST | PATCH | DELETE

  /** One call of `self.get/post/patch/delete(rest_url, ...)`. */
  datatype Request = Request(verb: Verb, path: string, params: map<string, Value>,
                             data: map<string, Value>, files: map<string, Value>)

  function Get(path: string, params: map<string, Value>): Request {
    Request(GET, path, params, map[], map[])
  }

  function Post(path: string, params: map<string, Value>, data: map<string, Value>): Request {
    Request(POST, path, params, data, map[])
  }

  function Patch(path: string, data: map<string, Value>): Request {
    Request(PATCH, path, map[], data, map[])
  }

  function Delete(path: string): Request {
    Request(DELETE, path, map[], map[], map[])
  }

  // ----- rows of the listings -----

  /** A template version manager: all versions of one template title. */
  datatype TemplateManager = TemplateManager(id: Id, title: string, versions: seq<Id>, current: Id,
                                             isDisabled: bool, disabledVersions: seq<Id>)

  /** A template document as `/rest/template/{id}/` returns it. */
  datatype TemplateDoc = TemplateDoc(id: Id, filename: string)

  /** A row of get_templates: a template document plus its manager's title. */
  datatype Template = Template(id: Id, filename: string, title: string)

  /** A data record; `template` is the id of the template it conforms to. */
  datatype DataRecord = DataRecord(id: Id, title: string, template: Id)

  datatype Blob = Blob(id: Id, filename: string, handle: string)

  datatype Workspace = Workspace(id: Id, title: string)

  datatype Xslt = Xslt(id: Id, name: string, filename: string)

  datatype PidXpath = PidXpath(id: Id, xpath: string, template: Id)

  /** A caller's template argument: a title, or a Series already fetched. */
  datatype TemplateRef = ByTitle(title: string) | BySeries(template: Template)

  /** The contents of a curator. */
  datatype Server = Server(
    globalManagers: seq<TemplateManager>,
    userManagers: seq<TemplateManager>,
    templateDocs: map<Id, TemplateDoc>,  // `/rest/template/{id}/` documents
    records: seq<DataRecord>,
    blobs: seq<Blob>,
    blobContents: map<Id, seq<byte>>,
    workspaces: seq<Workspace>,
    xslts: seq<Xslt>,
    pidXpaths: seq<PidXpath>,
    autoSetPid: bool)

  const GlobalManagersPath := "/rest/template-version-manager/global/"
  const UserManagersPath := "/rest/template-version-manager/user/"

  function ManagerSource(server: Server, path: string): seq<TemplateManager> {
    if path == UserManagersPath then server.userManagers else server.globalManagers
  }

  /** The manager listing: the user's or the global managers, those with
      the `title` param's title when it is sent, the disabled ones when
      `is_disabled` is sent and the active ones otherwise. */
  function ListManagers(server: Server, req: Request): (r: seq<TemplateManager>)
    ensures forall m :: m in r <==> m in ManagerSource(server, req.path) && ManagerFilter(req)(m)
  {
    Filter(ManagerSource(server, req.path), ManagerFilter(req))
  }

  /** The server-side filter of the manager listing. */
  function ManagerFilter(req: Request): TemplateManager -> bool {
    (m: TemplateManager) =>
      m.isDisabled == ("is_disabled" in req.params) &&
      ("title" in req.params ==> req.params["title"] == VStr(m.title))
  }

  /** The template document at `/rest/template/{id}/`; an unknown id is the
      server's 404. */
  function FetchTemplateDoc(server: Server, id: Id): (r: Result<TemplateDoc>)
    ensures r.Ok? <==> id in server.templateDocs
    ensures r.Ok? ==> r.value == server.templateDocs[id]
    ensures r.Err? ==> r == Err(HttpError(404))
  {
    if id in server.templateDocs then Ok(server.templateDocs[id]) else Err(HttpError(404))
  }

  /** The record listing at `/rest/data/`, narrowed by the `templates` and
      `title` params when they are sent. */
  function ListRecords(server: Server, req: Request): (r: seq<DataRecord>)
    ensures forall x :: x in r <==> x in server.records && RecordFilter(req)(x)
  {
    Filter(server.records, RecordFilter(req))
  }

  /** The server-side filter of the record listing. */
  function RecordFilter(req: Request): DataRecord -> bool {
    (x: DataRecord) =>
      ("templates" in req.params && req.params["templates"].VIdRefs? ==> x.template in req.params["templates"].ids) &&
      ("title" in req.params ==> req.params["title"] == VStr(x.title))
  }

  /** The blob listing at `/rest/blob/`, narrowed by the `filename` param. */
  function ListBlobs(server: Server, req: Request): (r: seq<Blob>)
    ensures forall b :: b in r <==> b in server.blobs && BlobFilter(req)(b)
  {
    Filter(server.blobs, BlobFilter(req))
  }

  /** The server-side filter of the blob listing. */
  function BlobFilter(req: Request): Blob -> bool {
    (b: Blob) => "filename" in req.params ==> req.params["filename"] == VStr(b.filename)
  }

  /** The first blob with id `id`, or the server's 404. */
  function FindBlob(blobs: seq<Blob>, id: Id): (r: Result<Blob>)
    ensures r.Ok? ==> r.value in blobs && r.value.id == id
    ensures r.Err? ==> r == Err(HttpError(404)) && forall b :: b in blobs ==> b.id != id
  {
    if blobs == [] then Err(HttpError(404))
    else if blobs[0].id == id then Ok(blobs[0])
    else FindBlob(blobs[1..], id)
  }

  /** The bytes at `/rest/blob/download/{id}`. */
  function FetchBlobContent(server: Server, id: Id): (r: Result<seq<byte>>)
    ensures r.Ok? <==> id in server.blobContents
    ensures r.Ok? ==> r.value == server.blobContents[id]
    ensures r.Err? ==> r.error == HttpError(404)
  {
    if id in server.blobContents then Ok(server.blobContents[id]) else Err(HttpError(404))
  }

  /** Local files: a path is a file exactly when it is a key. */
  datatype FileSystem = FileSystem(files: map<string, seq<byte>>)

  /** `open(path, 'rb').read()`. */
  function ReadFile(fs: FileSystem, path: string): (r: Result<seq<byte>>)
    ensures r.Ok? <==> path in fs.files
    ensures r.Ok? ==> r.value == fs.files[path]
    ensures r.Err? ==> r == Err(FileNotFound(path))
  {
    if path in fs.files then Ok(fs.files[path]) else Err(FileNotFound(path))
  }
}
