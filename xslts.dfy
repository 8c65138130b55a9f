/** XSLT transformations: the listing narrowed by name and file name on
    the client side, the exactly-one accessor, and the upload, update and
    delete requests with their alias and exclusivity rules. */
module Xslts {
  import opened Wrappers
  import opened Paths
  import opened Identity
  import opened Prologue
  import opened Curator
  import opened Templates

  const XsltsPath := "/rest/xslt/"

  function NameMask(name: Option<string>): Xslt -> bool {
    (x: Xslt) => name.Some? ==> x.name == name.value
  }

  function FilenameMask(filename: Option<string>): Xslt -> bool {
    (x: Xslt) => filename.Some? ==> x.filename == filename.value
  }

  predicate XsltWanted(x: Xslt, name: Option<string>, filename: Option<string>) {
    (name.Some? ==> x.name == name.value) && (filename.Some? ==> x.filename == filename.value)
  }

  function XsltMask(name: Option<string>, filename: Option<string>): Xslt -> bool {
    (x: Xslt) => XsltWanted(x, name, filename)
  }

  /** get_xslts: the name mask, then the file name mask (an empty response
      still has the columns, so both masks apply to it). */
  function GetXslts(server: Server, name: Option<string>, filename: Option<string>): (r: seq<Xslt>)
    ensures r == Filter(server.xslts, XsltMask(name, filename))
  {
    var byName := Filter(server.xslts, NameMask(name));
    FilterTwice(server.xslts, name, filename);
    Filter(byName, FilenameMask(filename))
  }

  /** Masking by name and then by file name is masking by both at once. */
  lemma {:induction false} FilterTwice(rows: seq<Xslt>, name: Option<string>, filename: Option<string>)
    ensures Filter(Filter(rows, NameMask(name)), FilenameMask(filename)) == Filter(rows, XsltMask(name, filename))
    decreases |rows|
  {
    if rows != [] {
      FilterTwice(rows[1..], name, filename);
      var front := if NameMask(name)(rows[0]) then [rows[0]] else [];
      FilterAppend(front, Filter(rows[1..], NameMask(name)), FilenameMask(filename));
      if NameMask(name)(rows[0]) {
        assert Filter(front, FilenameMask(filename)) == (if FilenameMask(filename)(rows[0]) then [rows[0]] else []) by {
          assert front[1..] == [];
        }
      }
    }
  }

  /** The listing keeps exactly the rows with the name and the file name. */
  lemma GetXsltsMembers(server: Server, name: Option<string>, filename: Option<string>, x: Xslt)
    ensures x in GetXslts(server, name, filename) <==> x in server.xslts && XsltWanted(x, name, filename)
  {
  }

  /** Without a name or a file name the listing is every XSLT, in order. */
  lemma GetXsltsUnfiltered(server: Server)
    ensures GetXslts(server, None, None) == server.xslts
  {
    FilterAll(server.xslts, XsltMask(None, None));
  }

  const XsltNoun := Noun("xslts", "xslts")

  /** get_xslt: the one XSLT get_xslts lists. */
  function GetXslt(server: Server, name: Option<string>, filename: Option<string>): (r: Result<Xslt>)
    ensures r.Ok? <==> |GetXslts(server, name, filename)| == 1
    ensures r.Ok? ==> GetXslts(server, name, filename) == [r.value]
    ensures |GetXslts(server, name, filename)| == 0 ==> r == Err(NoMatch(XsltNoun))
    ensures |GetXslts(server, name, filename)| > 1 ==> r == Err(ManyMatch(XsltNoun))
  {
    SelectOne(GetXslts(server, name, filename), XsltNoun)
  }

  /** The one XSLT with the name and file name is the one returned. */
  lemma {:induction false} GetXsltOfUnique(server: Server, name: Option<string>, filename: Option<string>, i: nat)
    requires UniqueMatch(server.xslts, XsltMask(name, filename), i)
    ensures GetXslt(server, name, filename) == Ok(server.xslts[i])
  {
    FilterOfUnique(server.xslts, XsltMask(name, filename), i);
  }

  // ----- upload_xslt -----

  /** upload_xslt: the same name, file name and content rules as a template
      upload, with `name` in the place of the title, then the POST of name,
      file name and encoded content. */
  function UploadXslt(fs: FileSystem, name: Option<string>, filename: Option<string>, content: Option<Content>)
    : (r: Result<Request>)
    ensures r.Ok? <==> ResolveFileArgs(fs, filename, content, name, None, "name").Ok? &&
                       EncodeContent(ResolveFileArgs(fs, filename, content, name, None, "name").value.content).Ok?
    ensures r.Ok? ==>
      var a := ResolveFileArgs(fs, filename, content, name, None, "name").value;
      r.value == Post(XsltsPath, map[], map["name" := VStr(a.title), "filename" := VStr(a.filename),
                                            "content" := VPayload(EncodeContent(a.content).value)])
  {
    var a :- ResolveFileArgs(fs, filename, content, name, None, "name");
    var payload :- EncodeContent(a.content);
    Ok(Post(XsltsPath, map[], map["name" := VStr(a.title), "filename" := VStr(a.filename), "content" := VPayload(payload)]))
  }

  /** A name alone names the file `name.xsd`; neither name nor file name
      is an error. */
  lemma UploadXsltByName(fs: FileSystem, name: string, content: Content)
    requires !content.Text?
    ensures UploadXslt(fs, Some(name), None, Some(content)) ==
      (if content.Bytes? then
         Ok(Post(XsltsPath, map[], map["name" := VStr(name), "filename" := VStr(name + ".xsd"),
                                      "content" := VPayload(Raw(content.b))]))
       else Err(TypeError("content must be str or bytes")))
    ensures UploadXslt(fs, None, None, Some(content)) == Err(ValueError("filename or name must be given"))
    ensures UploadXslt(fs, Some(name), None, None) == Err(ValueError("filename or content must be given"))
  {
    assert "filename or " + "name" + " must be given" == "filename or name must be given";
  }

  // ----- update_xslt and delete_xslt -----

  /** The id an xslt argument gives: both given is an error. */
  function IdOf(xslt: Option<Xslt>, xsltId: Option<Id>): (r: Result<Option<Id>>)
    ensures xslt.Some? && xsltId.Some? ==> r == Err(ValueError("xslt and xslt_id cannot both be given"))
    ensures xslt.Some? && xsltId.None? ==> r == Ok(Some(xslt.value.id))
    ensures xslt.None? ==> r == Ok(xsltId)
  {
    if xslt.Some? then
      if xsltId.Some? then Err(ValueError("xslt and xslt_id cannot both be given")) else Ok(Some(xslt.value.id))
    else Ok(xsltId)
  }

  /** With a known id, the old argument is an alias of the new one; giving both is an error. */
  function Alias(given: Option<string>, renamed: Option<string>, oldArg: string, newArg: string): (r: Result<Option<string>>)
    ensures given.Some? && renamed.Some? ==>
      r == Err(ValueError(oldArg + " and " + newArg + " are aliases when xslt or xslt_id are given"))
    ensures given.Some? && renamed.None? ==> r == Ok(given)
    ensures given.None? ==> r == Ok(renamed)
  {
    if given.Some? then
      if renamed.Some? then Err(ValueError(oldArg + " and " + newArg + " are aliases when xslt or xslt_id are given"))
      else Ok(given)
    else Ok(renamed)
  }

  /** The entry update_xslt patches, with the new name and file name. */
  datatype Target = Target(id: Id, newname: Option<string>, newfilename: Option<string>)

  /** The id and new values: from the xslt or its id, where name and
      file name are aliases of the new ones; else from the one XSLT
      with the name and file name. */
  function UpdateTarget(server: Server, name: Option<string>, filename: Option<string>, newname: Option<string>,
                        newfilename: Option<string>, xslt: Option<Xslt>, xsltId: Option<Id>): (r: Result<Target>)
    ensures IdOf(xslt, xsltId).Err? ==> r == Err(IdOf(xslt, xsltId).error)
    ensures IdOf(xslt, xsltId) == Ok(None) ==>
      (r.Ok? <==> GetXslt(server, name, filename).Ok?) &&
      (r.Ok? ==> r.value == Target(GetXslt(server, name, filename).value.id, newname, newfilename))
    ensures IdOf(xslt, xsltId).Ok? && IdOf(xslt, xsltId).value.Some? ==>
      (r.Ok? <==> Alias(name, newname, "name", "newname").Ok? && Alias(filename, newfilename, "filename", "newfilename").Ok?) &&
      (r.Ok? ==> r.value == Target(IdOf(xslt, xsltId).value.value, Alias(name, newname, "name", "newname").value,
                                  Alias(filename, newfilename, "filename", "newfilename").value))
  {
    var id :- IdOf(xslt, xsltId);
    if id.Some? then
      var nn :- Alias(name, newname, "name", "newname");
      var nf :- Alias(filename, newfilename, "filename", "newfilename");
      Ok(Target(id.value, nn, nf))
    else
      var x :- GetXslt(server, name, filename);
      Ok(Target(x.id, newname, newfilename))
  }

  function XsltPath(id: Id): string {
    XsltsPath + IdText(id) + "/"
  }

  /** update_xslt: the PATCH of the new name, file name and content.  A new
      file name that is a file supplies the content when none is given and
      is sent as its last component; text is encoded, other content is sent
      as given. */
  function UpdateXslt(server: Server, fs: FileSystem, name: Option<string>, filename: Option<string>,
                      content: Option<Content>, newname: Option<string>, newfilename: Option<string>,
                      xslt: Option<Xslt>, xsltId: Option<Id>): (r: Result<Request>)
    ensures r.Ok? ==> UpdateTarget(server, name, filename, newname, newfilename, xslt, xsltId).Ok?
    ensures r.Ok? ==>
      var t := UpdateTarget(server, name, filename, newname, newfilename, xslt, xsltId).value;
      r.value.verb == PATCH && r.value.path == XsltPath(t.id) &&
      r.value.data.Keys == {"name", "filename", "content"} &&
      r.value.data["name"] == OptStr(t.newname) &&
      r.value.data["filename"] == OptStr(if t.newfilename.Some? then Some(Name(t.newfilename.value)) else None)
    ensures UpdateTarget(server, name, filename, newname, newfilename, xslt, xsltId).Err? ==>
      r == Err(UpdateTarget(server, name, filename, newname, newfilename, xslt, xsltId).error)
    ensures UpdateTarget(server, name, filename, newname, newfilename, xslt, xsltId).Ok? ==>
      var t := UpdateTarget(server, name, filename, newname, newfilename, xslt, xsltId).value;
      && (content.None? && t.newfilename.Some? && t.newfilename.value in fs.files ==>
            r.Ok? && r.value.data["content"] == VPayload(Raw(fs.files[t.newfilename.value])))
      && (content.None? && !(t.newfilename.Some? && t.newfilename.value in fs.files) ==>
            r.Ok? && r.value.data["content"] == VNone)
      && (content.Some? ==> (r.Ok? <==> EncodeIfText(content.value).Ok?))
      && (content.Some? && r.Ok? ==> r.value.data["content"] == VPayload(EncodeIfText(content.value).value))
      && (content.Some? && r.Err? ==> r.error == EncodeIfText(content.value).error)
  {
    var t :- UpdateTarget(server, name, filename, newname, newfilename, xslt, xsltId);
    var c := if t.newfilename.Some? && content.None? && t.newfilename.value in fs.files
             then Some(Bytes(fs.files[t.newfilename.value])) else content;
    var sentName := if t.newfilename.Some? then Some(Name(t.newfilename.value)) else None;
    var payload :- if c.Some? then
                     var p :- EncodeIfText(c.value);
                     Ok(VPayload(p))
                   else Ok(VNone);
    Ok(Patch(XsltPath(t.id), map["name" := OptStr(t.newname), "filename" := OptStr(sentName), "content" := payload]))
  }

  /** Updating by id renames: `name` becomes the new name. */
  lemma UpdateXsltRename(server: Server, fs: FileSystem, id: Id, name: string)
    ensures UpdateXslt(server, fs, Some(name), None, None, None, None, None, Some(id)) ==
      Ok(Patch(XsltPath(id), map["name" := VStr(name), "filename" := VNone, "content" := VNone]))
  {
  }

  /** The id delete_xslt targets: an xslt or its id exclude a name and a
      file name; otherwise the one XSLT with them. */
  function DeleteTarget(server: Server, name: Option<string>, filename: Option<string>, xslt: Option<Xslt>,
                        xsltId: Option<Id>): (r: Result<Id>)
    ensures xslt.Some? && xsltId.Some? ==> r == Err(ValueError("xslt and xslt_id cannot both be given"))
    ensures (xslt.Some? != xsltId.Some?) && name.Some? ==> r == Err(ValueError("name cannot be given with xslt or xslt_id"))
    ensures (xslt.Some? != xsltId.Some?) && name.None? && filename.Some? ==>
      r == Err(ValueError("filename cannot be given with xslt or xslt_id"))
    ensures xslt.Some? && xsltId.None? && name.None? && filename.None? ==> r == Ok(xslt.value.id)
    ensures xslt.None? && xsltId.Some? && name.None? && filename.None? ==> r == Ok(xsltId.value)
    ensures xslt.None? && xsltId.None? ==>
      (r.Ok? <==> GetXslt(server, name, filename).Ok?) &&
      (r.Ok? ==> r.value == GetXslt(server, name, filename).value.id)
  {
    var id :- IdOf(xslt, xsltId);
    if id.Some? then
      if name.Some? then Err(ValueError("name cannot be given with xslt or xslt_id"))
      else if filename.Some? then Err(ValueError("filename cannot be given with xslt or xslt_id"))
      else Ok(id.value)
    else
      var x :- GetXslt(server, name, filename);
      Ok(x.id)
  }

  /** delete_xslt: a DELETE of the XSLT's URL. */
  function DeleteXslt(server: Server, name: Option<string>, filename: Option<string>, xslt: Option<Xslt>,
                      xsltId: Option<Id>): (r: Result<Request>)
    ensures r.Ok? <==> DeleteTarget(server, name, filename, xslt, xsltId).Ok?
    ensures r.Ok? ==> r.value == Delete(XsltPath(DeleteTarget(server, name, filename, xslt, xsltId).value))
  {
    var id :- DeleteTarget(server, name, filename, xslt, xsltId);
    Ok(Delete(XsltPath(id)))
  }
}
