/** PID xpaths: the xpath of the persistent-identifier field assigned to a
    template, listed per template, uploaded once per template, updated and
    deleted through the one xpath of the template. */
module PidXpaths {
  import opened Wrappers
  import opened Identity
  import opened Curator
  import opened Templates

  const XpathsPath := "/pid/rest/settings/xpath/"

  /** The template argument: a title, a template row, or a value of some
      other type. */
  datatype TemplateArg = TitleArg(title: string) | SeriesArg(template: Template) | OtherArg

  const TemplateTypeError := TypeError("template must be a template title or pandas.Series")

  /** A title is looked up with get_template's defaults; anything but a
      title or a row is a type error. */
  function ResolveTemplate(server: Server, arg: TemplateArg): (r: Result<Template>)
    ensures arg.SeriesArg? ==> r == Ok(arg.template)
    ensures arg.TitleArg? ==> r == GetTemplate(server, Some(arg.title), No, Yes, No)
    ensures arg.OtherArg? ==> r == Err(TemplateTypeError)
  {
    match arg
    case SeriesArg(t) => Ok(t)
    case TitleArg(t) => GetTemplate(server, Some(t), No, Yes, No)
    case OtherArg => Err(TemplateTypeError)
  }

  function TemplateMask(id: Id): PidXpath -> bool {
    (x: PidXpath) => x.template == id
  }

  /** get_pid_xpaths: every xpath, or those assigned to the template.  An
      empty response still has the `template` column, so no template
      argument fails on it. */
  function GetPidXpaths(server: Server, template: Option<TemplateArg>): (r: Result<seq<PidXpath>>)
    ensures template.None? ==> r == Ok(server.pidXpaths)
    ensures template.Some? ==> (r.Ok? <==> ResolveTemplate(server, template.value).Ok?)
    ensures template.Some? && r.Ok? ==>
      r.value == Filter(server.pidXpaths, TemplateMask(ResolveTemplate(server, template.value).value.id))
    ensures template.Some? && r.Err? ==> r == Err(ResolveTemplate(server, template.value).error)
  {
    if template.None? then Ok(server.pidXpaths)
    else
      var t :- ResolveTemplate(server, template.value);
      Ok(Filter(server.pidXpaths, TemplateMask(t.id)))
  }

  /** The listing for a template holds exactly the xpaths assigned to it. */
  lemma GetPidXpathsMembers(server: Server, t: Template, x: PidXpath)
    ensures GetPidXpaths(server, Some(SeriesArg(t))).Ok?
    ensures x in GetPidXpaths(server, Some(SeriesArg(t))).value <==> x in server.pidXpaths && x.template == t.id
  {
  }

  const XpathNoun := Noun("pid xpaths", "pid xpaths")

  /** get_pid_xpath: the one xpath get_pid_xpaths lists. */
  function GetPidXpath(server: Server, template: Option<TemplateArg>): (r: Result<PidXpath>)
    ensures r.Ok? <==> GetPidXpaths(server, template).Ok? && |GetPidXpaths(server, template).value| == 1
    ensures r.Ok? ==> GetPidXpaths(server, template).value == [r.value]
    ensures GetPidXpaths(server, template).Ok? && |GetPidXpaths(server, template).value| == 0 ==>
      r == Err(NoMatch(XpathNoun))
    ensures GetPidXpaths(server, template).Ok? && |GetPidXpaths(server, template).value| > 1 ==>
      r == Err(ManyMatch(XpathNoun))
  {
    var xpaths :- GetPidXpaths(server, template);
    SelectOne(xpaths, XpathNoun)
  }

  /** The one xpath of a template is the one returned. */
  lemma {:induction false} GetPidXpathOfUnique(server: Server, t: Template, i: nat)
    requires UniqueMatch(server.pidXpaths, TemplateMask(t.id), i)
    ensures GetPidXpath(server, Some(SeriesArg(t))) == Ok(server.pidXpaths[i])
  {
    FilterOfUnique(server.pidXpaths, TemplateMask(t.id), i);
  }

  /** A template without an xpath has "No matching pid xpaths found". */
  lemma GetPidXpathOfUnassigned(server: Server, t: Template)
    requires forall x :: x in server.pidXpaths ==> x.template != t.id
    ensures GetPidXpath(server, Some(SeriesArg(t))) == Err(NoMatch(XpathNoun))
  {
    FilterNone(server.pidXpaths, TemplateMask(t.id));
  }

  function AlreadyAssigned(t: Template): Error {
    ValueError("template " + t.title + " already has a pid xpath assigned to it.")
  }

  /** upload_pid_xpath: the POST of template id and xpath, refused when the
      template already has any xpath. */
  function UploadPidXpath(server: Server, template: TemplateArg, xpath: string): (r: Result<Request>)
    ensures r.Ok? <==> ResolveTemplate(server, template).Ok? &&
                       forall x :: x in server.pidXpaths ==> x.template != ResolveTemplate(server, template).value.id
    ensures r.Ok? ==>
      r.value == Post(XpathsPath, map[], map["template" := VId(ResolveTemplate(server, template).value.id),
                                             "xpath" := VStr(xpath)])
    ensures ResolveTemplate(server, template).Ok? && r.Err? ==>
      r == Err(AlreadyAssigned(ResolveTemplate(server, template).value))
  {
    var t :- ResolveTemplate(server, template);
    var existing := Filter(server.pidXpaths, TemplateMask(t.id));
    if |existing| > 0 then
      assert existing[0] in server.pidXpaths;
      Err(AlreadyAssigned(t))
    else
      Ok(Post(XpathsPath, map[], map["template" := VId(t.id), "xpath" := VStr(xpath)]))
  }

  /** An upload followed by the listing lists the new assignment once:
      after an accepted upload the template has no other xpath. */
  lemma UploadThenUnique(server: Server, t: Template, xpath: string, created: PidXpath)
    requires UploadPidXpath(server, SeriesArg(t), xpath).Ok?
    requires created.template == t.id
    ensures GetPidXpath(server.(pidXpaths := server.pidXpaths + [created]), Some(SeriesArg(t))) == Ok(created)
  {
    FilterNone(server.pidXpaths, TemplateMask(t.id));
    FilterAppend(server.pidXpaths, [created], TemplateMask(t.id));
    assert Filter([created], TemplateMask(t.id)) == [created] by {
      assert [created][1..] == [];
    }
  }

  function XpathPath(id: Id): string {
    XpathsPath + IdText(id) + "/"
  }

  /** update_pid_xpath: the PATCH of the new xpath to the template's one
      xpath. */
  function UpdatePidXpath(server: Server, template: TemplateArg, xpath: string): (r: Result<Request>)
    ensures r.Ok? <==> GetPidXpath(server, Some(template)).Ok?
    ensures r.Ok? ==> r.value == Patch(XpathPath(GetPidXpath(server, Some(template)).value.id), map["xpath" := VStr(xpath)])
  {
    var x :- GetPidXpath(server, Some(template));
    Ok(Patch(XpathPath(x.id), map["xpath" := VStr(xpath)]))
  }

  /** delete_pid_xpath: the DELETE of the template's one xpath. */
  function DeletePidXpath(server: Server, template: TemplateArg): (r: Result<Request>)
    ensures r.Ok? <==> GetPidXpath(server, Some(template)).Ok?
    ensures r.Ok? ==> r.value == Delete(XpathPath(GetPidXpath(server, Some(template)).value.id))
  {
    var x :- GetPidXpath(server, Some(template));
    Ok(Delete(XpathPath(x.id)))
  }

  /** An xpath cannot be both uploaded and updated for the same template:
      upload needs none assigned, update needs exactly one. */
  lemma UploadExcludesUpdate(server: Server, template: TemplateArg, xpath: string, other: string)
    ensures !(UploadPidXpath(server, template, xpath).Ok? && UpdatePidXpath(server, template, other).Ok?)
  {
    if UploadPidXpath(server, template, xpath).Ok? {
      var t := ResolveTemplate(server, template).value;
      FilterNone(server.pidXpaths, TemplateMask(t.id));
    }
  }
}
