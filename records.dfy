/** Data records: the listing with its template and title narrowing, the
    exactly-one accessor, and the upload, update and delete requests. */
module Records {
  import opened Wrappers
  import opened Paths
  import opened Aslist
  import opened Identity
  import opened Prologue
  import opened Curator
  import opened Templates
  import opened Query

  const RecordsPath := "/rest/data/"

  /** A template argument: a title is looked up with get_template, a
      Series is used as it is. */
  function TemplateOf(server: Server, ref: TemplateRef): (r: Result<Template>)
    ensures ref.BySeries? ==> r == Ok(ref.template)
    ensures ref.ByTitle? ==> r == GetTemplate(server, Some(ref.title), No, Yes, No)
  {
    match ref
    case BySeries(t) => Ok(t)
    case ByTitle(t) => GetTemplate(server, Some(t), No, Yes, No)
  }

  /** The params of get_records: the template's id as a one-item list when
      a template is given, the title when it is given. */
  function RecordsRequest(server: Server, template: Option<TemplateRef>, title: Option<string>)
    : (r: Result<Request>)
    ensures r.Ok? <==> template.None? || TemplateOf(server, template.value).Ok?
    ensures r.Ok? ==> r.value.verb == GET && r.value.path == RecordsPath
    ensures r.Ok? ==> ("templates" in r.value.params <==> template.Some?)
    ensures r.Ok? && template.Some? ==>
      r.value.params["templates"] == VIdRefs([TemplateOf(server, template.value).value.id])
    ensures r.Ok? ==> ("title" in r.value.params <==> title.Some?)
    ensures r.Ok? && title.Some? ==> r.value.params["title"] == VStr(title.value)
  {
    var params :- if template.None? then Ok(map[])
                  else
                    var t :- TemplateOf(server, template.value);
                    Ok(map["templates" := VIdRefs([t.id])]);
    var params := if title.Some? then params["title" := VStr(title.value)] else params;
    Ok(Get(RecordsPath, params))
  }

  /** The records of the template (when given) with the title (when given). */
  predicate RecordWanted(x: DataRecord, template: Option<Template>, title: Option<string>) {
    (template.Some? ==> x.template == template.value.id) && (title.Some? ==> x.title == title.value)
  }

  function RecordMask(template: Option<Template>, title: Option<string>): DataRecord -> bool {
    (x: DataRecord) => RecordWanted(x, template, title)
  }

  /** get_records. */
  function GetRecords(server: Server, template: Option<TemplateRef>, title: Option<string>)
    : (r: Result<seq<DataRecord>>)
    ensures r.Ok? <==> template.None? || TemplateOf(server, template.value).Ok?
    ensures r.Ok? ==>
      var t := if template.Some? then Some(TemplateOf(server, template.value).value) else None;
      r.value == Filter(server.records, RecordMask(t, title))
  {
    var req :- RecordsRequest(server, template, title);
    var t := if template.Some? then Some(TemplateOf(server, template.value).value) else None;
    SameRecordFilter(server.records, req, t, title);
    Ok(ListRecords(server, req))
  }

  /** The server's filter of the request is the record mask. */
  lemma {:induction false} SameRecordFilter(rows: seq<DataRecord>, req: Request, t: Option<Template>, title: Option<string>)
    requires "templates" in req.params <==> t.Some?
    requires t.Some? ==> req.params["templates"] == VIdRefs([t.value.id])
    requires "title" in req.params <==> title.Some?
    requires title.Some? ==> req.params["title"] == VStr(title.value)
    ensures Filter(rows, RecordFilter(req)) == Filter(rows, RecordMask(t, title))
    decreases |rows|
  {
    if rows != [] {
      assert RecordFilter(req)(rows[0]) == RecordMask(t, title)(rows[0]);
      SameRecordFilter(rows[1..], req, t, title);
    }
  }

  const RecordNoun := Noun("records", "records")

  /** get_record: the one record get_records lists. */
  function GetRecord(server: Server, template: Option<TemplateRef>, title: Option<string>)
    : (r: Result<DataRecord>)
    ensures r.Ok? <==> GetRecords(server, template, title).Ok? && |GetRecords(server, template, title).value| == 1
    ensures r.Ok? ==> GetRecords(server, template, title).value == [r.value]
    ensures GetRecords(server, template, title).Ok? && |GetRecords(server, template, title).value| == 0 ==>
      r == Err(NoMatch(RecordNoun))
    ensures GetRecords(server, template, title).Ok? && |GetRecords(server, template, title).value| > 1 ==>
      r == Err(ManyMatch(RecordNoun))
  {
    var records :- GetRecords(server, template, title);
    SelectOne(records, RecordNoun)
  }

  /** A record that alone has the template and title is the one returned. */
  lemma {:induction false} GetRecordOfUnique(server: Server, t: Template, title: string, i: nat)
    requires UniqueMatch(server.records, RecordMask(Some(t), Some(title)), i)
    ensures GetRecord(server, Some(BySeries(t)), Some(title)) == Ok(server.records[i])
  {
    FilterOfUnique(server.records, RecordMask(Some(t), Some(title)), i);
  }

  /** Content and title of upload_record: a file gives bytes and, without a
      title, its stem; content needs a title and goes through the encoding
      step. */
  function RecordContent(fs: FileSystem, filename: Option<string>, content: Option<Content>, title: Option<string>)
    : (r: Result<(string, Payload)>)
    ensures filename.Some? && content.Some? ==> r == Err(ValueError("filename and content cannot both be given"))
    ensures filename.Some? && content.None? ==> (r.Ok? <==> filename.value in fs.files)
    ensures filename.Some? && r.Ok? ==>
      r.value == (if title.Some? then title.value else Stem(filename.value), Raw(fs.files[filename.value]))
    ensures filename.None? && content.Some? && title.None? ==> r == Err(ValueError("title must be given with content"))
    ensures filename.None? && content.Some? && title.Some? ==>
      (r.Ok? <==> EncodeContent(content.value).Ok?) &&
      (r.Ok? ==> r.value == (title.value, EncodeContent(content.value).value))
    ensures filename.None? && content.None? ==> r == Err(ValueError("filename or content must be given"))
  {
    if filename.Some? then
      if content.Some? then Err(ValueError("filename and content cannot both be given"))
      else
        var bytes :- ReadFile(fs, filename.value);
        Ok((if title.Some? then title.value else Stem(filename.value), Raw(bytes)))
    else if content.Some? then
      if title.None? then Err(ValueError("title must be given with content"))
      else
        var payload :- EncodeContent(content.value);
        Ok((title.value, payload))
    else Err(ValueError("filename or content must be given"))
  }

  const DuplicateMsg := "Record with matching title and template found!"

  /** upload_record: the POST of title, template id and content, refused when
      the duplicate check's query (against the scripted `pages`) finds a
      record.  Only `duplicatecheck is True` runs the check. */
  function UploadRecord(server: Server, pages: seq<Page>, fs: FileSystem, template: TemplateRef,
                        filename: Option<string>, content: Option<Content>, title: Option<string>,
                        duplicatecheck: Flag): (r: Result<Request>)
    ensures r.Ok? ==> TemplateOf(server, template).Ok? && RecordContent(fs, filename, content, title).Ok?
    ensures r.Ok? ==>
      var t := TemplateOf(server, template).value;
      var (ti, payload) := RecordContent(fs, filename, content, title).value;
      r.value == Post(RecordsPath, map[], map["title" := VStr(ti), "template" := VId(t.id), "xml_content" := VPayload(payload)])
    ensures r.Ok? && duplicatecheck == Yes ==>
      var ti := RecordContent(fs, filename, content, title).value.0;
      var t := TemplateOf(server, template).value;
      DuplicateQuery(server, pages, t, ti) == Ok([])
    ensures TemplateOf(server, template).Ok? && RecordContent(fs, filename, content, title).Ok? && duplicatecheck != Yes ==>
      r.Ok?
    ensures TemplateOf(server, template).Err? ==> r == Err(TemplateOf(server, template).error)
    ensures TemplateOf(server, template).Ok? && RecordContent(fs, filename, content, title).Err? ==>
      r == Err(RecordContent(fs, filename, content, title).error)
    ensures TemplateOf(server, template).Ok? && RecordContent(fs, filename, content, title).Ok? && duplicatecheck == Yes ==>
      var d := DuplicateQuery(server, pages, TemplateOf(server, template).value, RecordContent(fs, filename, content, title).value.0);
      && (d.Err? ==> r == Err(d.error))
      && (d.Ok? && |d.value| > 0 ==> r == Err(ValueError(DuplicateMsg)))
      && (d.Ok? && |d.value| == 0 ==> r.Ok?)
  {
    var t :- TemplateOf(server, template);
    var (ti, payload) :- RecordContent(fs, filename, content, title);
    var _ :- if duplicatecheck == Yes then
               var matches :- DuplicateQuery(server, pages, t, ti);
               if |matches| > 0 then Err(ValueError(DuplicateMsg)) else Ok(())
             else Ok(());
    Ok(Post(RecordsPath, map[], map["title" := VStr(ti), "template" := VId(t.id), "xml_content" := VPayload(payload)]))
  }

  /** The duplicate check: a query by the template (a Series) and the title. */
  function DuplicateQuery(server: Server, pages: seq<Page>, t: Template, title: string)
    : (r: Result<seq<TitledRecord>>)
    ensures r.Ok? ==> Collect(pages).Ok? && |r.value| == |Collect(pages).value|
  {
    QueryResult(server, pages, Some(Items(Atom(SeriesAtom, SeriesItem(t)))), Some(title), None, None)
  }

  /** A duplicate found by the check refuses the upload. */
  lemma UploadRecordDuplicate(server: Server, pages: seq<Page>, fs: FileSystem, template: TemplateRef,
                              filename: Option<string>, content: Option<Content>, title: Option<string>)
    requires TemplateOf(server, template).Ok? && RecordContent(fs, filename, content, title).Ok?
    requires
      var ti := RecordContent(fs, filename, content, title).value.0;
      var d := DuplicateQuery(server, pages, TemplateOf(server, template).value, ti);
      d.Ok? && |d.value| > 0
    ensures UploadRecord(server, pages, fs, template, filename, content, title, Yes) == Err(ValueError(DuplicateMsg))
  {
  }

  /** With the check off, the scripted query pages play no part. */
  lemma UploadRecordUnchecked(server: Server, pages: seq<Page>, other: seq<Page>, fs: FileSystem, template: TemplateRef,
                              filename: Option<string>, content: Option<Content>, title: Option<string>, check: Flag)
    requires check != Yes
    ensures UploadRecord(server, pages, fs, template, filename, content, title, check) ==
            UploadRecord(server, other, fs, template, filename, content, title, check)
  {
  }

  /** A record argument: given, or found by template and title. */
  function RecordOf(server: Server, record: Option<DataRecord>, template: Option<TemplateRef>, title: Option<string>)
    : (r: Result<DataRecord>)
    ensures record.Some? ==> r == Ok(record.value)
    ensures record.None? ==> r == GetRecord(server, template, title)
  {
    if record.Some? then Ok(record.value) else GetRecord(server, template, title)
  }

  function RecordPath(id: Id): string {
    RecordsPath + IdText(id) + "/"
  }

  /** update_record: a PATCH of the new content to the record's URL.  A
      file replaces the content and, if no title is given, supplies its stem
      as the title the record is looked up by. */
  function UpdateRecord(server: Server, fs: FileSystem, record: Option<DataRecord>, template: Option<TemplateRef>,
                        title: Option<string>, filename: Option<string>, content: Option<Value>)
    : (r: Result<Request>)
    ensures filename.Some? && content.Some? ==> r == Err(ValueError("filename and content cannot both be given"))
    ensures filename.Some? && filename.value !in fs.files ==> r.Err?
    ensures r.Ok? ==>
      var lookup := if filename.Some? && title.None? then Some(Stem(filename.value)) else title;
      var sent := if filename.Some? then VBytes(fs.files[filename.value]) else if content.Some? then content.value else VNone;
      RecordOf(server, record, template, lookup).Ok? &&
      r.value == Patch(RecordPath(RecordOf(server, record, template, lookup).value.id), map["xml_content" := sent])
    ensures record.Some? && filename.None? ==>
      r == Ok(Patch(RecordPath(record.value.id), map["xml_content" := if content.Some? then content.value else VNone]))
    ensures filename.Some? && content.None? && filename.value !in fs.files ==> r == Err(FileNotFound(filename.value))
    ensures (filename.Some? ==> content.None? && filename.value in fs.files) ==>
      var lookup := if filename.Some? && title.None? then Some(Stem(filename.value)) else title;
      && (RecordOf(server, record, template, lookup).Ok? ==> r.Ok?)
      && (RecordOf(server, record, template, lookup).Err? ==> r == Err(RecordOf(server, record, template, lookup).error))
  {
    var (lookup, sent) :-
      if filename.Some? then
        if content.Some? then Err(ValueError("filename and content cannot both be given"))
        else
          var bytes :- ReadFile(fs, filename.value);
          Ok((if title.None? then Some(Stem(filename.value)) else title, VBytes(bytes)))
      else Ok((title, if content.Some? then content.value else VNone));
    var x :- RecordOf(server, record, template, lookup);
    Ok(Patch(RecordPath(x.id), map["xml_content" := sent]))
  }

  /** delete_record: a DELETE of the record's URL. */
  function DeleteRecord(server: Server, record: Option<DataRecord>, template: Option<TemplateRef>, title: Option<string>)
    : (r: Result<Request>)
    ensures r.Ok? <==> RecordOf(server, record, template, title).Ok?
    ensures r.Ok? ==> r.value == Delete(RecordPath(RecordOf(server, record, template, title).value.id))
    ensures record.None? && r.Ok? ==> RecordOf(server, record, template, title).value in server.records
  {
    var x :- RecordOf(server, record, template, title);
    RecordOfListed(server, template, title);
    Ok(Delete(RecordPath(x.id)))
  }

  /** A record looked up by template and title is one the server holds. */
  lemma RecordOfListed(server: Server, template: Option<TemplateRef>, title: Option<string>)
    ensures GetRecord(server, template, title).Ok? ==> GetRecord(server, template, title).value in server.records
  {
    var r := GetRecord(server, template, title);
    if r.Ok? {
      assert r.value in GetRecords(server, template, title).value;
    }
  }
}
