/** Templates and their version managers: listing, the guards on whole
    managers and on single versions, uploading and new versions. */
module Templates {
  import opened Wrappers
  import opened Strings
  import opened Paths
  import opened Identity
  import opened Prologue
  import opened Curator

  // ----- get_template_managers -----

  /** The request get_template_managers sends. */
  function ManagersRequest(title: Option<string>, isDisabled: Flag, useronly: Flag): (r: Result<Request>)
    ensures r.Err? <==> useronly.NotBool?
    ensures r.Err? ==> r.error == TypeError("useronly must be bool")
    ensures r.Ok? ==> r.value.verb == GET
    ensures r.Ok? ==> (r.value.path == UserManagersPath <==> useronly == Yes)
    ensures r.Ok? ==> ("title" in r.value.params <==> title.Some?)
    ensures r.Ok? && title.Some? ==> r.value.params["title"] == VStr(title.value)
    ensures r.Ok? ==> ("is_disabled" in r.value.params <==> isDisabled == Yes)
    ensures r.Ok? ==> r.value.params.Keys <= {"title", "is_disabled"}
  {
    var path :-
      match useronly
      case No => Ok(GlobalManagersPath)
      case Yes => Ok(UserManagersPath)
      case NotBool(_) => Err(TypeError("useronly must be bool"));
    var byTitle: map<string, Value> := if title.Some? then map["title" := VStr(title.value)] else map[];
    var params := if isDisabled == Yes then byTitle["is_disabled" := VBool(true)] else byTitle;
    Ok(Get(path, params))
  }

  /** The managers a manager row must match: active or disabled as asked
      for, and with the given title when there is one. */
  predicate ManagerWanted(m: TemplateManager, title: Option<string>, isDisabled: Flag) {
    m.isDisabled == (isDisabled == Yes) && (title.Some? ==> m.title == title.value)
  }

  /** get_template_managers: the user's managers when `useronly is True`,
      the global ones when it `is False`, narrowed server-side. */
  function GetTemplateManagers(server: Server, title: Option<string>, isDisabled: Flag, useronly: Flag)
    : (r: Result<seq<TemplateManager>>)
    ensures r.Err? <==> useronly.NotBool?
    ensures r.Ok? ==> forall m :: m in r.value <==>
      m in (if useronly == Yes then server.userManagers else server.globalManagers) &&
      ManagerWanted(m, title, isDisabled)
  {
    var req :- ManagersRequest(title, isDisabled, useronly);
    assert req.path == UserManagersPath <==> useronly == Yes;
    Ok(ListManagers(server, req))
  }

  /** The `title` column of a manager listing. */
  function Titles(ms: seq<TemplateManager>): (r: seq<string>)
    ensures |r| == |ms|
    ensures forall t :: t in r <==> exists m :: m in ms && m.title == t
  {
    if ms == [] then [] else [ms[0].title] + Titles(ms[1..])
  }

  /** The `template_titles` property: the titles of the active global
      managers, in listing order.  The frame of an empty listing has no
      `title` column, so a curator without an active global manager gives
      AttributeError. */
  function TemplateTitles(server: Server): (r: Result<seq<string>>)
    ensures r.Err? <==> forall m :: m in server.globalManagers ==> m.isDisabled
    ensures r.Err? ==> r.error == AttributeError("title")
    ensures r.Ok? ==> forall t :: t in r.value <==> exists m :: m in server.globalManagers && !m.isDisabled && m.title == t
  {
    var ms := GetTemplateManagers(server, None, No, No).value;
    if ms == [] then Err(AttributeError("title"))
    else
      assert ms[0] in ms;
      Ok(Titles(ms))
  }

  // ----- whole-manager guards -----

  /** The manager a call names, by title (the first active global manager
      with that title) or by a row the caller already holds.  `.loc[0]` on
      an empty listing is a KeyError. */
  function ResolveManager(server: Server, title: Option<string>, tm: Option<TemplateManager>, noneMsg: string)
    : (r: Result<TemplateManager>)
    ensures title.Some? && tm.Some? ==> r == Err(ValueError("title and template_manager cannot both be given"))
    ensures title.None? && tm.None? ==> r == Err(ValueError(noneMsg))
    ensures title.None? && tm.Some? ==> r == Ok(tm.value)
    ensures title.Some? && tm.None? ==>
      (r.Ok? <==> exists m :: m in server.globalManagers && ManagerWanted(m, title, No))
    ensures title.Some? && tm.None? && r.Ok? ==> r.value in server.globalManagers && ManagerWanted(r.value, title, No)
    ensures title.Some? && tm.None? && r.Err? ==> r == Err(KeyError("0"))
  {
    if title.Some? then
      if tm.Some? then Err(ValueError("title and template_manager cannot both be given"))
      else
        var ms := GetTemplateManagers(server, title, No, No).value;
        if |ms| == 0 then Err(KeyError("0")) else assert ms[0] in ms; Ok(ms[0])
    else if tm.None? then Err(ValueError(noneMsg))
    else Ok(tm.value)
  }

  function ManagerPath(id: Id, action: string): string {
    "/rest/template-version-manager/" + IdText(id) + "/" + action + "/"
  }

  const ManagerNoneMsg := "title or template_manager must be given"

  /** disable_template_manager: the PATCH that disables the named manager,
      refused for a manager that is already disabled. */
  function DisableTemplateManager(server: Server, title: Option<string>, tm: Option<TemplateManager>)
    : (r: Result<Request>)
    ensures r.Ok? ==> exists m: TemplateManager :: ((tm == Some(m) || m in server.globalManagers) &&
        !m.isDisabled && r.value == Patch(ManagerPath(m.id, "disable"), map[]))
    ensures tm.Some? && title.None? ==> (r.Ok? <==> !tm.value.isDisabled)
    ensures tm.Some? && title.None? && tm.value.isDisabled ==> r == Err(ValueError("template manager already disabled"))
    ensures title.Some? && tm.None? ==>
      (r.Ok? <==> exists m :: m in server.globalManagers && !m.isDisabled && m.title == title.value)
    ensures title.Some? && tm.Some? ==> r == Err(ValueError("title and template_manager cannot both be given"))
    ensures title.None? && tm.None? ==> r == Err(ValueError(ManagerNoneMsg))
    ensures tm.Some? && title.None? && !tm.value.isDisabled ==>
      r == Ok(Patch(ManagerPath(tm.value.id, "disable"), map[]))
    ensures title.Some? && tm.None? && ManagersTitled(server, title.value) == [] ==> r == Err(KeyError("0"))
    ensures title.Some? && tm.None? && ManagersTitled(server, title.value) != [] ==>
      r == Ok(Patch(ManagerPath(ManagersTitled(server, title.value)[0].id, "disable"), map[]))
  {
    var m :- ResolveManager(server, title, tm, ManagerNoneMsg);
    if m.isDisabled then Err(ValueError("template manager already disabled"))
    else Ok(Patch(ManagerPath(m.id, "disable"), map[]))
  }

  /** restore_template_manager as written: a title is looked up among the
      ACTIVE managers (get_template_managers is called without
      `is_disabled`), and an active manager is then refused. */
  function RestoreTemplateManagerAsWritten(server: Server, title: Option<string>, tm: Option<TemplateManager>)
    : (r: Result<Request>)
    ensures r.Ok? ==> exists m: TemplateManager :: ((tm == Some(m) || m in server.globalManagers) &&
        m.isDisabled && r.value == Patch(ManagerPath(m.id, "restore"), map[]))
    ensures tm.Some? && title.None? ==> (r.Ok? <==> tm.value.isDisabled)
    ensures tm.Some? && title.None? && !tm.value.isDisabled ==> r == Err(ValueError("template manager already active"))
    ensures title.Some? && tm.Some? ==> r == Err(ValueError("title and template_manager cannot both be given"))
    ensures title.None? && tm.None? ==> r == Err(ValueError(ManagerNoneMsg))
    ensures tm.Some? && title.None? && tm.value.isDisabled ==>
      r == Ok(Patch(ManagerPath(tm.value.id, "restore"), map[]))
    ensures title.Some? && tm.None? && ManagersTitled(server, title.value) == [] ==> r == Err(KeyError("0"))
    ensures title.Some? && tm.None? && ManagersTitled(server, title.value) != [] ==>
      r == Err(ValueError("template manager already active"))
  {
    var m :- ResolveManager(server, title, tm, ManagerNoneMsg);
    if !m.isDisabled then Err(ValueError("template manager already active"))
    else Ok(Patch(ManagerPath(m.id, "restore"), map[]))
  }

  /** By title, the source's restore can never succeed: the manager found is
      active and is refused, or there is none and `.loc[0]` fails. */
  lemma RestoreByTitleAlwaysFails(server: Server, title: string)
    ensures RestoreTemplateManagerAsWritten(server, Some(title), None).Err?
    ensures (exists m :: m in server.globalManagers && !m.isDisabled && m.title == title) ==>
      RestoreTemplateManagerAsWritten(server, Some(title), None) == Err(ValueError("template manager already active"))
  {
  }

  /** restore_template_manager as intended: a title is looked up among the
      disabled managers, so any disabled manager can be restored by title. */
  function RestoreTemplateManager(server: Server, title: Option<string>, tm: Option<TemplateManager>)
    : (r: Result<Request>)
    ensures r.Ok? ==> exists m: TemplateManager :: ((tm == Some(m) || m in server.globalManagers) &&
        m.isDisabled && r.value == Patch(ManagerPath(m.id, "restore"), map[]))
    ensures tm.Some? && title.None? ==> (r.Ok? <==> tm.value.isDisabled)
    ensures tm.Some? && title.None? && !tm.value.isDisabled ==> r == Err(ValueError("template manager already active"))
    ensures title.Some? && tm.None? ==>
      (r.Ok? <==> exists m :: m in server.globalManagers && m.isDisabled && m.title == title.value)
    ensures title.Some? && tm.Some? ==> r == Err(ValueError("title and template_manager cannot both be given"))
    ensures title.None? && tm.None? ==> r == Err(ValueError(ManagerNoneMsg))
    ensures tm.Some? && title.None? && tm.value.isDisabled ==>
      r == Ok(Patch(ManagerPath(tm.value.id, "restore"), map[]))
    ensures title.Some? && tm.None? && DisabledManagersTitled(server, title.value) == [] ==> r == Err(KeyError("0"))
    ensures title.Some? && tm.None? && DisabledManagersTitled(server, title.value) != [] ==>
      r == Ok(Patch(ManagerPath(DisabledManagersTitled(server, title.value)[0].id, "restore"), map[]))
  {
    var m :-
      if title.Some? && tm.None? then
        var ms := GetTemplateManagers(server, title, Yes, No).value;
        if |ms| == 0 then Err(KeyError("0")) else assert ms[0] in ms; Ok(ms[0])
      else ResolveManager(server, title, tm, ManagerNoneMsg);
    if !m.isDisabled then Err(ValueError("template manager already active"))
    else Ok(Patch(ManagerPath(m.id, "restore"), map[]))
  }

  // ----- single versions: disable_template, restore_template, set_current_template -----

  datatype VersionOp = DisableVersion | RestoreVersion | MakeCurrent

  /** What each operation demands of the version it acts on. */
  predicate Allowed(op: VersionOp, m: TemplateManager, id: Id) {
    match op
    case DisableVersion => id != m.current && id !in m.disabledVersions
    case RestoreVersion => id in m.disabledVersions
    case MakeCurrent => id != m.current && id !in m.disabledVersions
  }

  /** The guard each operation runs on the version it picked, in the
      source's order: the current-version check before the disabled one. */
  function VersionGuard(op: VersionOp, m: TemplateManager, id: Id): (r: Option<Error>)
    ensures r.None? <==> Allowed(op, m, id)
    ensures op == DisableVersion && id == m.current ==> r == Some(ValueError("cannot disable the current template version"))
    ensures op == MakeCurrent && id == m.current ==> r == Some(ValueError("template version is already current"))
  {
    match op
    case DisableVersion =>
      if id == m.current then Some(ValueError("cannot disable the current template version"))
      else if id in m.disabledVersions then Some(ValueError("template version already disabled"))
      else None
    case RestoreVersion =>
      if id !in m.disabledVersions then Some(ValueError("template version already active")) else None
    case MakeCurrent =>
      if id == m.current then Some(ValueError("template version is already current"))
      else if id in m.disabledVersions then Some(ValueError("template version is disabled"))
      else None
  }

  function Action(op: VersionOp): string {
    match op
    case DisableVersion => "disable"
    case RestoreVersion => "restore"
    case MakeCurrent => "current"
  }

  function VersionPath(id: Id, op: VersionOp): string {
    "/rest/template/version/" + IdText(id) + "/" + Action(op) + "/"
  }

  const VersionNoneMsg := "title, template_manager or template_id must be given"

  /** The template id a version operation acts on.  A template_id excludes
      every other argument and is taken unchecked; otherwise the manager
      is resolved and the 1-based `version` picks `versions[version-1]`. */
  function VersionTarget(server: Server, op: VersionOp, title: Option<string>, version: Option<int>,
                         tm: Option<TemplateManager>, templateId: Option<Id>): (r: Result<Id>)
    ensures templateId.Some? ==> (r.Ok? <==> title.None? && version.None? && tm.None?)
    ensures templateId.Some? && r.Ok? ==> r.value == templateId.value
    ensures templateId.Some? && tm.Some? ==> r == Err(ValueError("template_id and template_manager cannot both be given"))
    ensures templateId.None? && title.None? && tm.None? ==> r == Err(ValueError(VersionNoneMsg))
    ensures templateId.None? && title.Some? && tm.Some? ==> r == Err(ValueError("title and template_manager cannot both be given"))
    ensures templateId.None? && title.None? && tm.Some? ==>
      var m := tm.value;
      && (version.None? ==> r == Err(ValueError("version is required with title or template_manager")))
      && (version.Some? && !(1 <= version.value <= |m.versions|) ==> r == Err(IndexError("version number out of range")))
      && (r.Ok? <==> version.Some? && 1 <= version.value <= |m.versions| && Allowed(op, m, m.versions[version.value - 1]))
      && (r.Ok? ==> r.value == m.versions[version.value - 1])
  {
    if templateId.Some? then
      if tm.Some? then Err(ValueError("template_id and template_manager cannot both be given"))
      else if title.Some? then Err(ValueError("template_id and title cannot both be given"))
      else if version.Some? then Err(ValueError("template_id and version cannot both be given"))
      else Ok(templateId.value)
    else
      var m :- ResolveManager(server, title, tm, VersionNoneMsg);
      if version.None? then Err(ValueError("version is required with title or template_manager"))
      else if version.value < 1 || version.value > |m.versions| then Err(IndexError("version number out of range"))
      else
        var id := m.versions[version.value - 1];
        match VersionGuard(op, m, id)
        case Some(e) => Err(e)
        case None => Ok(id)
  }

  /** The PATCH a version operation sends. */
  function VersionRequest(server: Server, op: VersionOp, title: Option<string>, version: Option<int>,
                          tm: Option<TemplateManager>, templateId: Option<Id>): (r: Result<Request>)
    ensures r.Ok? <==> VersionTarget(server, op, title, version, tm, templateId).Ok?
    ensures r.Ok? ==> r.value == Patch(VersionPath(VersionTarget(server, op, title, version, tm, templateId).value, op), map[])
  {
    var id :- VersionTarget(server, op, title, version, tm, templateId);
    Ok(Patch(VersionPath(id, op), map[]))
  }

  /** By title, a version operation acts on the first active global manager
      with that title, exactly as if that row had been passed. */
  lemma {:induction false} VersionByTitle(server: Server, op: VersionOp, title: string, version: Option<int>)
    requires exists m :: m in server.globalManagers && ManagerWanted(m, Some(title), No)
    ensures ResolveManager(server, Some(title), None, VersionNoneMsg).Ok?
    ensures VersionTarget(server, op, Some(title), version, None, None) ==
            VersionTarget(server, op, None, version, Some(ResolveManager(server, Some(title), None, VersionNoneMsg).value), None)
  {
  }

  /** The template managers of the test fixture: `first` with one version,
      `second` with two (the second current), and the disabled `third`. */
  function FixtureManagers(): seq<TemplateManager> {
    [ TemplateManager(StrId("managerhash1"), "first", [StrId("firsthash1")], StrId("firsthash1"), false, []),
      TemplateManager(StrId("managerhash2"), "second", [StrId("secondhash1"), StrId("secondhash2")],
                      StrId("secondhash2"), false, []),
      TemplateManager(StrId("managerhash3"), "third", [StrId("thirdhash1")], StrId("thirdhash1"), true, []) ]
  }

  /** set_current_template on the fixture: version 1 of `second` is made
      current, its version 2 already is, and `first` has no version 2. */
  lemma SetCurrentOnFixture(server: Server)
    requires server.globalManagers == FixtureManagers()
    ensures VersionRequest(server, MakeCurrent, Some("second"), Some(1), None, None)
            == Ok(Patch("/rest/template/version/secondhash1/current/", map[]))
    ensures VersionRequest(server, MakeCurrent, Some("second"), Some(2), None, None)
            == Err(ValueError("template version is already current"))
    ensures VersionRequest(server, MakeCurrent, Some("first"), Some(2), None, None)
            == Err(IndexError("version number out of range"))
  {
    SecondIsOnlyMatch(server);
    FirstIsOnlyMatch(server);
    SetCurrentSecond(server);
    SetCurrentSecondAgain(server);
    SetCurrentFirstOutOfRange(server);
  }

  lemma SetCurrentSecondAgain(server: Server)
    requires ResolveManager(server, Some("second"), None, VersionNoneMsg) == Ok(FixtureManagers()[1])
    ensures VersionRequest(server, MakeCurrent, Some("second"), Some(2), None, None)
            == Err(ValueError("template version is already current"))
  {
    var m := FixtureManagers()[1];
    assert VersionGuard(MakeCurrent, m, m.versions[1]) == Some(ValueError("template version is already current"));
  }

  lemma SetCurrentFirstOutOfRange(server: Server)
    requires ResolveManager(server, Some("first"), None, VersionNoneMsg) == Ok(FixtureManagers()[0])
    ensures VersionRequest(server, MakeCurrent, Some("first"), Some(2), None, None)
            == Err(IndexError("version number out of range"))
  {
  }

  lemma SetCurrentSecond(server: Server)
    requires ResolveManager(server, Some("second"), None, VersionNoneMsg) == Ok(FixtureManagers()[1])
    ensures VersionRequest(server, MakeCurrent, Some("second"), Some(1), None, None)
            == Ok(Patch("/rest/template/version/secondhash1/current/", map[]))
  {
    var m := FixtureManagers()[1];
    SecondVersionOneAllowed();
    VersionTargetAt(server, MakeCurrent, "second", 1, m);
    SecondVersionOnePath();
  }

  /** Version 1 of `second` is neither current nor disabled. */
  lemma SecondVersionOneAllowed()
    ensures Allowed(MakeCurrent, FixtureManagers()[1], FixtureManagers()[1].versions[0])
  {
    var m := FixtureManagers()[1];
    assert m.versions[0] == StrId("secondhash1") && m.current == StrId("secondhash2");
    assert "secondhash1"[10] != "secondhash2"[10];
  }

  lemma SecondVersionOnePath()
    ensures VersionPath(FixtureManagers()[1].versions[0], MakeCurrent) == "/rest/template/version/secondhash1/current/"
  {
    assert FixtureManagers()[1].versions[0] == StrId("secondhash1");
  }

  /** By a title that resolves to `m`, an allowed version `k` is the target. */
  lemma VersionTargetAt(server: Server, op: VersionOp, title: string, k: int, m: TemplateManager)
    requires ResolveManager(server, Some(title), None, VersionNoneMsg) == Ok(m)
    requires 1 <= k <= |m.versions| && Allowed(op, m, m.versions[k - 1])
    ensures VersionTarget(server, op, Some(title), Some(k), None, None) == Ok(m.versions[k - 1])
  {
  }

  /** Only `first` and `second` are active fixture managers, each once. */
  lemma FixtureTitles()
    ensures UniqueMatch(FixtureManagers(), (m: TemplateManager) => ManagerWanted(m, Some("first"), No), 0)
    ensures UniqueMatch(FixtureManagers(), (m: TemplateManager) => ManagerWanted(m, Some("second"), No), 1)
  {
    var ms := FixtureManagers();
    assert ms[0].title == "first" && ms[1].title == "second" && ms[2].isDisabled;
    assert "first" != "second";
  }

  lemma SecondIsOnlyMatch(server: Server)
    requires server.globalManagers == FixtureManagers()
    ensures GetTemplateManagers(server, Some("second"), No, No) == Ok([FixtureManagers()[1]])
    ensures ResolveManager(server, Some("second"), None, VersionNoneMsg) == Ok(FixtureManagers()[1])
  {
    FixtureTitles();
    ManagersByTitle(server, "second", 1);
  }

  lemma FirstIsOnlyMatch(server: Server)
    requires server.globalManagers == FixtureManagers()
    ensures GetTemplateManagers(server, Some("first"), No, No) == Ok([FixtureManagers()[0]])
    ensures ResolveManager(server, Some("first"), None, VersionNoneMsg) == Ok(FixtureManagers()[0])
  {
    FixtureTitles();
    ManagersByTitle(server, "first", 0);
  }

  // ----- get_templates and get_template -----

  /** A template id to fetch, with the title of the manager it belongs to. */
  type Slot = (Id, string)

  /** The slots one manager contributes: its current version, or all its
      versions in order. */
  function ManagerSlots(m: TemplateManager, current: bool): (r: seq<Slot>)
    ensures current ==> r == [(m.current, m.title)]
    ensures !current ==> |r| == |m.versions| && forall k :: 0 <= k < |r| ==> r[k] == (m.versions[k], m.title)
  {
    if current then [(m.current, m.title)]
    else seq(|m.versions|, k requires 0 <= k < |m.versions| => (m.versions[k], m.title))
  }

  /** All slots of a manager listing, manager by manager. */
  function Slots(ms: seq<TemplateManager>, current: bool): seq<Slot>
    decreases |ms|
  {
    if ms == [] then [] else Slots(ms[..|ms| - 1], current) + ManagerSlots(ms[|ms| - 1], current)
  }

  function RowOf(doc: TemplateDoc, title: string): Template {
    Template(doc.id, doc.filename, title)
  }

  /** Fetching the slots in order; the first failing GET is the error. */
  function FetchRows(server: Server, slots: seq<Slot>): (r: Result<seq<Template>>)
    ensures r.Ok? <==> forall k :: 0 <= k < |slots| ==> slots[k].0 in server.templateDocs
    ensures r.Ok? ==> |r.value| == |slots|
    ensures r.Ok? ==> forall k :: 0 <= k < |slots| ==> r.value[k] == RowOf(server.templateDocs[slots[k].0], slots[k].1)
    decreases |slots|
  {
    if slots == [] then Ok([])
    else
      var front := FetchRows(server, slots[..|slots| - 1]);
      assert forall k :: 0 <= k < |slots| - 1 ==> slots[..|slots| - 1][k] == slots[k];
      if front.Err? then Err(front.error)
      else
        var last := slots[|slots| - 1];
        var doc := FetchTemplateDoc(server, last.0);
        if doc.Err? then Err(doc.error)
        else Ok(front.value + [RowOf(doc.value, last.1)])
  }

  /** get_templates: the managers' templates, fetched one GET per slot. */
  function TemplateListing(server: Server, title: Option<string>, isDisabled: Flag, current: Flag, useronly: Flag)
    : (r: Result<seq<Template>>)
    ensures useronly.NotBool? ==> r == Err(TypeError("useronly must be bool"))
    ensures r.Ok? ==> forall t :: t in r.value ==> exists m :: m in GetTemplateManagers(server, title, isDisabled, useronly).value && t.title == m.title
  {
    var ms :- GetTemplateManagers(server, title, isDisabled, useronly);
    if |ms| == 0 then Ok([])
    else if current.NotBool? then Err(TypeError("current must be bool"))
    else
      var rows := FetchRows(server, Slots(ms, current == Yes));
      SlotTitles(ms, current == Yes);
      rows
  }

  /** Every slot carries the title of a manager of the listing. */
  lemma {:induction false} SlotTitles(ms: seq<TemplateManager>, current: bool)
    ensures forall k :: 0 <= k < |Slots(ms, current)| ==> exists m :: m in ms && Slots(ms, current)[k].1 == m.title
    decreases |ms|
  {
    if ms != [] {
      var front := ms[..|ms| - 1];
      var m := ms[|ms| - 1];
      SlotTitles(front, current);
      assert Slots(ms, current) == Slots(front, current) + ManagerSlots(m, current);
      forall k | 0 <= k < |Slots(ms, current)| ensures exists m :: m in ms && Slots(ms, current)[k].1 == m.title {
        if k < |Slots(front, current)| {
          assert Slots(ms, current)[k] == Slots(front, current)[k];
          var m' :| m' in front && Slots(front, current)[k].1 == m'.title;
          assert m' in ms;
        } else {
          assert Slots(ms, current)[k] == ManagerSlots(m, current)[k - |Slots(front, current)|];
          assert Slots(ms, current)[k].1 == m.title;
          assert m in ms;
        }
      }
    } else {
      assert Slots(ms, current) == [];
    }
  }

  /** Slots of a concatenation are the concatenated slots. */
  lemma {:induction false} SlotsAppend(a: seq<TemplateManager>, b: seq<TemplateManager>, current: bool)
    ensures Slots(a + b, current) == Slots(a, current) + Slots(b, current)
    decreases |b|
  {
    if b == [] {
      assert a + b == a;
    } else {
      var front := b[..|b| - 1];
      var m := b[|b| - 1];
      assert a + b == (a + front) + [m];
      assert b == front + [m];
      SlotsAppend(a, front, current);
      SlotsSnoc(a + front, m, current);
      SlotsSnoc(front, m, current);
    }
  }

  /** One manager more adds its slots at the end. */
  lemma SlotsSnoc(ms: seq<TemplateManager>, m: TemplateManager, current: bool)
    ensures Slots(ms + [m], current) == Slots(ms, current) + ManagerSlots(m, current)
  {
    assert (ms + [m])[..|ms|] == ms;
  }

  lemma SlotsNext(ms: seq<TemplateManager>, i: nat, current: bool)
    requires i < |ms|
    ensures Slots(ms[..i + 1], current) == Slots(ms[..i], current) + ManagerSlots(ms[i], current)
  {
    assert ms[..i + 1][..i] == ms[..i];
  }

  /** The slots of manager `i` sit between those before and after it. */
  lemma SlotsAround(ms: seq<TemplateManager>, i: nat, current: bool)
    requires i < |ms|
    ensures Slots(ms, current) == Slots(ms[..i], current) + ManagerSlots(ms[i], current) + Slots(ms[i + 1..], current)
  {
    assert ms[..i + 1] + ms[i + 1..] == ms;
    SlotsAppend(ms[..i + 1], ms[i + 1..], current);
    SlotsNext(ms, i, current);
  }

  /** With current=True there is one slot per manager: its current version
      with its title, in manager order. */
  lemma {:induction false} SlotsCurrent(ms: seq<TemplateManager>)
    ensures |Slots(ms, true)| == |ms|
    ensures forall i :: 0 <= i < |ms| ==> Slots(ms, true)[i] == (ms[i].current, ms[i].title)
    decreases |ms|
  {
    if ms != [] {
      SlotsCurrent(ms[..|ms| - 1]);
    }
  }

  /** With current=False, manager `i`'s version `k` sits right after the
      slots of the managers before it, with that manager's title. */
  lemma {:induction false} SlotsAllAt(ms: seq<TemplateManager>, i: nat, k: nat)
    requires i < |ms| && k < |ms[i].versions|
    ensures |Slots(ms[..i], false)| + k < |Slots(ms, false)|
    ensures Slots(ms, false)[|Slots(ms[..i], false)| + k] == (ms[i].versions[k], ms[i].title)
  {
    SlotsAround(ms, i, false);
    var before := Slots(ms[..i], false);
    var mine := ManagerSlots(ms[i], false);
    assert Slots(ms, false)[|before| + k] == mine[k];
  }

  /** One slot more is one fetch more. */
  lemma FetchRowsSnoc(server: Server, slots: seq<Slot>, x: Slot)
    ensures FetchRows(server, slots + [x]) ==
      (if FetchRows(server, slots).Err? then FetchRows(server, slots)
       else if FetchTemplateDoc(server, x.0).Err? then Err(HttpError(404))
       else Ok(FetchRows(server, slots).value + [RowOf(server.templateDocs[x.0], x.1)]))
  {
    assert (slots + [x])[..|slots|] == slots;
  }

  /** Once a fetch has failed, later slots do not change the error. */
  lemma {:induction false} FetchRowsFailed(server: Server, slots: seq<Slot>, more: seq<Slot>)
    requires FetchRows(server, slots).Err?
    ensures FetchRows(server, slots + more) == FetchRows(server, slots)
    decreases |more|
  {
    if more == [] {
      assert slots + more == slots;
    } else {
      var more' := more[..|more| - 1];
      assert slots + more == (slots + more') + [more[|more| - 1]];
      FetchRowsFailed(server, slots, more');
      FetchRowsSnoc(server, slots + more', more[|more| - 1]);
    }
  }

  /** get_templates as the source runs it: one loop over the current ids,
      or a loop over the managers with an inner loop over their versions. */
  method GetTemplates(server: Server, title: Option<string>, isDisabled: Flag, current: Flag, useronly: Flag)
    returns (r: Result<seq<Template>>)
    ensures r == TemplateListing(server, title, isDisabled, current, useronly)
  {
    var managers := GetTemplateManagers(server, title, isDisabled, useronly);
    if managers.Err? {
      return Err(managers.error);
    }
    var ms := managers.value;
    if |ms| == 0 {
      return Ok([]);
    }
    if current == Yes {
      r := FetchCurrentTemplates(server, ms);
    } else if current == No {
      r := FetchAllTemplates(server, ms);
    } else {
      r := Err(TypeError("current must be bool"));
    }
  }

  /** The current=True loop of get_templates. */
  method FetchCurrentTemplates(server: Server, ms: seq<TemplateManager>) returns (r: Result<seq<Template>>)
    ensures r == FetchRows(server, Slots(ms, true))
  {
    var templates: seq<Template> := [];
    for i := 0 to |ms|
      invariant FetchRows(server, Slots(ms[..i], true)) == Ok(templates)
    {
      SlotsNext(ms, i, true);
      FetchRowsSnoc(server, Slots(ms[..i], true), (ms[i].current, ms[i].title));
      var doc := FetchTemplateDoc(server, ms[i].current);
      if doc.Err? {
        SlotsAround(ms, i, true);
        FetchRowsFailed(server, Slots(ms[..i + 1], true), Slots(ms[i + 1..], true));
        return Err(doc.error);
      }
      templates := templates + [RowOf(doc.value, ms[i].title)];
    }
    assert ms[..|ms|] == ms;
    return Ok(templates);
  }

  /** The current=False loops of get_templates: the outer loop over the
      managers. */
  method FetchAllTemplates(server: Server, ms: seq<TemplateManager>) returns (r: Result<seq<Template>>)
    ensures r == FetchRows(server, Slots(ms, false))
  {
    var templates: seq<Template> := [];
    for i := 0 to |ms|
      invariant FetchRows(server, Slots(ms[..i], false)) == Ok(templates)
    {
      SlotsNext(ms, i, false);
      var rows := FetchVersions(server, Slots(ms[..i], false), templates, ms[i]);
      if rows.Err? {
        SlotsAround(ms, i, false);
        FetchRowsFailed(server, Slots(ms[..i + 1], false), Slots(ms[i + 1..], false));
        return rows;
      }
      templates := rows.value;
    }
    assert ms[..|ms|] == ms;
    return Ok(templates);
  }

  /** The inner loop over one manager's versions, appending to the rows
      fetched for the slots before it. */
  method FetchVersions(server: Server, before: seq<Slot>, templates: seq<Template>, m: TemplateManager)
    returns (r: Result<seq<Template>>)
    requires FetchRows(server, before) == Ok(templates)
    ensures r == FetchRows(server, before + ManagerSlots(m, false))
  {
    var mine := ManagerSlots(m, false);
    var rows := templates;
    assert before + mine[..0] == before;
    for j := 0 to |m.versions|
      invariant FetchRows(server, before + mine[..j]) == Ok(rows)
    {
      FetchStep(server, before, mine, j, rows);
      var doc := FetchTemplateDoc(server, m.versions[j]);
      if doc.Err? {
        FetchStepFailed(server, before, mine, j);
        return Err(doc.error);
      }
      rows := rows + [RowOf(doc.value, m.title)];
    }
    assert mine[..|m.versions|] == mine;
    return Ok(rows);
  }

  /** Fetching slot `j` of `mine` after the ones before it. */
  lemma FetchStep(server: Server, before: seq<Slot>, mine: seq<Slot>, j: nat, rows: seq<Template>)
    requires j < |mine| && FetchRows(server, before + mine[..j]) == Ok(rows)
    ensures FetchRows(server, before + mine[..j + 1]) ==
      (if FetchTemplateDoc(server, mine[j].0).Err? then Err(HttpError(404))
       else Ok(rows + [RowOf(server.templateDocs[mine[j].0], mine[j].1)]))
  {
    assert (before + mine[..j]) + [mine[j]] == before + mine[..j + 1];
    FetchRowsSnoc(server, before + mine[..j], mine[j]);
  }

  /** A failed fetch of slot `j` is the error of all of `mine`. */
  lemma FetchStepFailed(server: Server, before: seq<Slot>, mine: seq<Slot>, j: nat)
    requires j < |mine| && FetchRows(server, before + mine[..j + 1]).Err?
    ensures FetchRows(server, before + mine) == FetchRows(server, before + mine[..j + 1])
  {
    PrefixOfAppend(before, mine, j + 1);
    FetchRowsFailed(server, before + mine[..j + 1], mine[j + 1..]);
  }

  /** Splitting `b` inside `a + b`. */
  lemma PrefixOfAppend<T>(a: seq<T>, b: seq<T>, j: nat)
    requires j <= |b|
    ensures (a + b[..j]) + b[j..] == a + b
  {
    assert b[..j] + b[j..] == b;
  }

  const TemplateNoun := Noun("template", "templates")

  /** get_template: the one template get_templates lists. */
  function GetTemplate(server: Server, title: Option<string>, isDisabled: Flag, current: Flag, useronly: Flag)
    : (r: Result<Template>)
    ensures r.Ok? <==> TemplateListing(server, title, isDisabled, current, useronly).Ok? &&
                       |TemplateListing(server, title, isDisabled, current, useronly).value| == 1
    ensures r.Ok? ==> TemplateListing(server, title, isDisabled, current, useronly).value == [r.value]
  {
    var templates :- TemplateListing(server, title, isDisabled, current, useronly);
    SelectOne(templates, TemplateNoun)
  }

  /** The active global managers with a title, as listed. */
  lemma {:induction false} ManagersByTitle(server: Server, title: string, i: nat)
    requires UniqueMatch(server.globalManagers, (m: TemplateManager) => ManagerWanted(m, Some(title), No), i)
    ensures GetTemplateManagers(server, Some(title), No, No) == Ok([server.globalManagers[i]])
  {
    var req := ManagersRequest(Some(title), No, No).value;
    var gm := server.globalManagers;
    assert UniqueMatch(gm, ManagerFilter(req), i) by {
      forall j | 0 <= j < |gm| ensures ManagerFilter(req)(gm[j]) == ManagerWanted(gm[j], Some(title), No) {
      }
    }
    FilterOfUnique(gm, ManagerFilter(req), i);
  }

  /** A title held by exactly one active global manager names that
      manager's current template, carrying the title. */
  lemma {:induction false} GetTemplateOfUniqueTitle(server: Server, title: string, i: nat)
    requires UniqueMatch(server.globalManagers, (m: TemplateManager) => ManagerWanted(m, Some(title), No), i)
    requires server.globalManagers[i].current in server.templateDocs
    ensures GetTemplate(server, Some(title), No, Yes, No) ==
            Ok(RowOf(server.templateDocs[server.globalManagers[i].current], title))
  {
    var m := server.globalManagers[i];
    ManagersByTitle(server, title, i);
    SlotsCurrent([m]);
    var rows := FetchRows(server, Slots([m], true));
    assert rows.Ok?;
    assert rows.value == [RowOf(server.templateDocs[m.current], title)];
  }

  /** A title no active global manager holds is "No matching template". */
  lemma GetTemplateOfUnknownTitle(server: Server, title: string, current: Flag)
    requires forall m :: m in server.globalManagers ==> !ManagerWanted(m, Some(title), No)
    ensures GetTemplate(server, Some(title), No, current, No) == Err(NoMatch(TemplateNoun))
  {
    var req := ManagersRequest(Some(title), No, No).value;
    forall m | m in server.globalManagers ensures !ManagerFilter(req)(m) {
    }
    FilterNone(server.globalManagers, ManagerFilter(req));
  }

  // ----- upload_template and update_template -----

  /** The title, file name and content an upload settles on. */
  datatype FileArgs = FileArgs(title: string, filename: string, content: Content)

  /** The argument rules shared by upload_template and update_template: a
      filename supplies the content (read as bytes), the title (its stem, or
      `fallback`) and the sent name (its last component); a title alone
      names the file `title.xsd` and needs content. */
  function ResolveFileArgs(fs: FileSystem, filename: Option<string>, content: Option<Content>,
                           title: Option<string>, fallback: Option<string>, titleArg: string): (r: Result<FileArgs>)
    ensures filename.None? && title.None? ==> r == Err(ValueError("filename or " + titleArg + " must be given"))
    ensures filename.None? && title.Some? && content.None? ==> r == Err(ValueError("filename or content must be given"))
    ensures filename.None? && title.Some? && content.Some? ==>
      r == Ok(FileArgs(title.value, title.value + ".xsd", content.value))
    ensures filename.Some? ==> (r.Ok? <==> content.Some? || filename.value in fs.files)
    ensures filename.Some? && r.Err? ==> r == Err(FileNotFound(filename.value))
    ensures filename.Some? && r.Ok? ==> r.value.filename == Name(filename.value)
    ensures filename.Some? && r.Ok? && title.None? && fallback.None? ==> r.value.title == Stem(filename.value)
    ensures filename.Some? && r.Ok? && content.None? ==> r.value.content == Bytes(fs.files[filename.value])
    ensures r.Ok? && title.Some? ==> r.value.title == title.value
    ensures r.Ok? && content.Some? ==> r.value.content == content.value
  {
    if filename.Some? then
      var c :-
        if content.None? then
          var bytes :- ReadFile(fs, filename.value);
          Ok(Bytes(bytes))
        else Ok(content.value);
      var t := if title.Some? then title.value else if fallback.Some? then fallback.value else Stem(filename.value);
      Ok(FileArgs(t, Name(filename.value), c))
    else if title.Some? then
      if content.None? then Err(ValueError("filename or content must be given"))
      else Ok(FileArgs(title.value, title.value + ".xsd", content.value))
    else Err(ValueError("filename or " + titleArg + " must be given"))
  }

  function UploadPath(useronly: bool): string {
    if useronly then "/rest/template/user/" else "/rest/template/global/"
  }

  /** upload_template: a POST of title, file name and encoded content,
      refused when an active global manager already has the title; the
      titles are read after the file arguments and before the encoding. */
  function UploadTemplate(server: Server, fs: FileSystem, filename: Option<string>, content: Option<Content>,
                          title: Option<string>, useronly: bool): (r: Result<Request>)
    ensures ResolveFileArgs(fs, filename, content, title, None, "title").Err? ==>
      r == Err(ResolveFileArgs(fs, filename, content, title, None, "title").error)
    ensures ResolveFileArgs(fs, filename, content, title, None, "title").Ok? && TemplateTitles(server).Err? ==>
      r == Err(AttributeError("title"))
    ensures ResolveFileArgs(fs, filename, content, title, None, "title").Ok? && TemplateTitles(server).Ok? ==>
      var a := ResolveFileArgs(fs, filename, content, title, None, "title").value;
      && (a.title in TemplateTitles(server).value ==> r == Err(ValueError("template " + a.title + " already exists")))
      && (a.title !in TemplateTitles(server).value && EncodeContent(a.content).Err? ==>
            r == Err(EncodeContent(a.content).error))
      && (a.title !in TemplateTitles(server).value && EncodeContent(a.content).Ok? ==>
            r == Ok(Post(UploadPath(useronly), map[], map["title" := VStr(a.title), "filename" := VStr(a.filename),
                                                          "content" := VPayload(EncodeContent(a.content).value)])))
  {
    var a :- ResolveFileArgs(fs, filename, content, title, None, "title");
    var titles :- TemplateTitles(server);
    if a.title in titles then Err(ValueError("template " + a.title + " already exists"))
    else
      var payload :- EncodeContent(a.content);
      Ok(Post(UploadPath(useronly), map[], map["title" := VStr(a.title), "filename" := VStr(a.filename),
                                                "content" := VPayload(payload)]))
  }

  /** Uploading `dir/base.ext` by file name alone sends its bytes unchanged
      under the title `base` and the name `base.ext`. */
  lemma UploadTemplateOfFile(server: Server, fs: FileSystem, dir: string, base: string, ext: string)
    requires base != [] && NoSlash(base)
    requires ext != [] && NoSlash(ext) && forall k :: 0 <= k < |ext| ==> ext[k] != '.'
    requires dir + "/" + base + "." + ext in fs.files
    requires exists m :: m in server.globalManagers && !m.isDisabled
    requires forall m :: m in server.globalManagers && !m.isDisabled ==> m.title != base
    ensures UploadTemplate(server, fs, Some(dir + "/" + base + "." + ext), None, None, false) ==
      Ok(Post("/rest/template/global/", map[], map["title" := VStr(base), "filename" := VStr(base + "." + ext),
              "content" := VPayload(Raw(fs.files[dir + "/" + base + "." + ext]))]))
  {
    StemOfFileName(dir, base, ext);
  }

  /** Text content that starts with a declaration naming `enc` is sent
      encoded with `enc`. */
  lemma UploadTemplateOfText(server: Server, fs: FileSystem, title: string, enc: string, attrs: string, rest: string)
    requires forall k :: 0 <= k < |enc| ==> enc[k] != '"' && enc[k] != '?'
    requires forall k :: 0 <= k < |attrs| ==> attrs[k] != '?'
    requires exists m :: m in server.globalManagers && !m.isDisabled
    requires forall m :: m in server.globalManagers && !m.isDisabled ==> m.title != title
    ensures UploadTemplate(server, fs, None, Some(Text(Declaration(enc, attrs) + rest)), Some(title), true) ==
      Ok(Post("/rest/template/user/", map[], map["title" := VStr(title), "filename" := VStr(title + ".xsd"),
              "content" := VPayload(Encoded(Declaration(enc, attrs) + rest, enc))]))
  {
    SniffDeclarationRoundTrip(enc, attrs, rest);
  }

  /** The versions update_template's `disable_old` loop disables: those not
      yet disabled, and the old current one only when the new version was
      made current. */
  function OldVersionKept(m: TemplateManager, setCurrent: bool): Id -> bool {
    (v: Id) => v !in m.disabledVersions && (setCurrent || v != m.current)
  }

  function OldVersions(m: TemplateManager, setCurrent: bool): (r: seq<Id>)
    ensures forall v :: v in r <==> v in m.versions && v !in m.disabledVersions && (setCurrent || v != m.current)
  {
    Filter(m.versions, OldVersionKept(m, setCurrent))
  }

  /** The PATCH requests that disable `ids`, in order. */
  function DisableRequests(ids: seq<Id>): (r: seq<Request>)
    ensures |r| == |ids|
    ensures forall k :: 0 <= k < |ids| ==> r[k] == Patch(VersionPath(ids[k], DisableVersion), map[])
  {
    seq(|ids|, k requires 0 <= k < |ids| => Patch(VersionPath(ids[k], DisableVersion), map[]))
  }

  /** Each of those requests is what `disable_template(template_id=v)`
      sends: a template_id alone passes every check. */
  lemma DisableRequestsAreDisableTemplate(server: Server, ids: seq<Id>)
    ensures forall k :: 0 <= k < |ids| ==>
      VersionRequest(server, DisableVersion, None, None, None, Some(ids[k])) == Ok(DisableRequests(ids)[k])
  {
  }

  /** With set_current, the old current version is disabled along with
      the rest; without it, it never is. */
  lemma OldCurrentVersion(m: TemplateManager, setCurrent: bool)
    requires m.current in m.versions && m.current !in m.disabledVersions
    ensures m.current in OldVersions(m, setCurrent) <==> setCurrent
  {
  }

  lemma DisableRequestsSnoc(ids: seq<Id>, v: Id)
    ensures DisableRequests(ids + [v]) == DisableRequests(ids) + [Patch(VersionPath(v, DisableVersion), map[])]
  {
  }

  /** The disable_old loop over the manager's versions. */
  method DisableOld(m: TemplateManager, setCurrent: bool) returns (reqs: seq<Request>)
    ensures reqs == DisableRequests(OldVersions(m, setCurrent))
  {
    reqs := [];
    for i := 0 to |m.versions|
      invariant reqs == DisableRequests(Filter(m.versions[..i], OldVersionKept(m, setCurrent)))
    {
      var version := m.versions[i];
      DisableOldStep(m, setCurrent, i);
      if version in m.disabledVersions {
        continue;
      }
      if version == m.current && !setCurrent {
        continue;
      }
      reqs := reqs + [Patch(VersionPath(version, DisableVersion), map[])];
    }
    assert m.versions[..|m.versions|] == m.versions;
  }

  /** One version more adds its request exactly when it is an old one. */
  lemma DisableOldStep(m: TemplateManager, setCurrent: bool, i: nat)
    requires i < |m.versions|
    ensures var keep := OldVersionKept(m, setCurrent);
      var v := m.versions[i];
      DisableRequests(Filter(m.versions[..i + 1], keep)) ==
        DisableRequests(Filter(m.versions[..i], keep)) +
        (if v !in m.disabledVersions && (setCurrent || v != m.current)
         then [Patch(VersionPath(v, DisableVersion), map[])] else [])
  {
    var keep := OldVersionKept(m, setCurrent);
    var v := m.versions[i];
    assert m.versions[..i + 1] == m.versions[..i] + [v];
    FilterSnoc(m.versions[..i], v, keep);
    DisableRequestsSnoc(Filter(m.versions[..i], keep), v);
  }

  /** The title update_template falls back on when neither a title nor a
      file stem is given: the manager's own. */
  function ManagerTitle(tm: Option<TemplateManager>): Option<string> {
    if tm.Some? then Some(tm.value.title) else None
  }

  /** The active global managers with title `t`, as the update looks them up. */
  function ManagersTitled(server: Server, t: string): seq<TemplateManager> {
    GetTemplateManagers(server, Some(t), No, No).value
  }

  /** The disabled global managers with title `t`, as the intended restore
      looks them up. */
  function DisabledManagersTitled(server: Server, t: string): seq<TemplateManager> {
    GetTemplateManagers(server, Some(t), Yes, No).value
  }

  /** The manager an update goes to, and its POST of the new version: the
      file arguments come first, then the lookup of the one active global
      manager with the title (unless a manager is given), then the encoding. */
  function UpdatePlan(server: Server, fs: FileSystem, filename: Option<string>, content: Option<Content>,
                      title: Option<string>, tm: Option<TemplateManager>): (r: Result<(TemplateManager, Request)>)
    ensures tm.Some? && r.Ok? ==> r.value.0 == tm.value
    ensures tm.None? && r.Ok? ==>
      ResolveFileArgs(fs, filename, content, title, None, "title").Ok? &&
      r.value.0 in server.globalManagers && !r.value.0.isDisabled &&
      r.value.0.title == ResolveFileArgs(fs, filename, content, title, None, "title").value.title
    ensures var a := ResolveFileArgs(fs, filename, content, title, ManagerTitle(tm), "title");
      && (a.Err? ==> r == Err(a.error))
      && (a.Ok? && tm.None? && |ManagersTitled(server, a.value.title)| != 1 ==>
            r == Err(ValueError("template " + a.value.title + " does not exist")))
      && (a.Ok? && (tm.Some? || |ManagersTitled(server, a.value.title)| == 1) ==>
            var m := if tm.Some? then tm.value else ManagersTitled(server, a.value.title)[0];
            && (EncodeContent(a.value.content).Err? ==> r == Err(EncodeContent(a.value.content).error))
            && (EncodeContent(a.value.content).Ok? ==>
                  r == Ok((m, Post(ManagerPath(m.id, "version"), map[],
                                   map["filename" := VStr(a.value.filename),
                                       "content" := VPayload(EncodeContent(a.value.content).value)])))))
  {
    var a :- ResolveFileArgs(fs, filename, content, title, ManagerTitle(tm), "title");
    var m :-
      if tm.Some? then Ok(tm.value)
      else
        var ms := ManagersTitled(server, a.title);
        if |ms| == 1 then assert ms[0] in ms; Ok(ms[0]) else Err(ValueError("template " + a.title + " does not exist"));
    var payload :- EncodeContent(a.content);
    Ok((m, Post(ManagerPath(m.id, "version"), map[], map["filename" := VStr(a.filename), "content" := VPayload(payload)])))
  }

  /** An update by a title no single active global manager holds fails. */
  lemma UpdateOfUnknownTitle(server: Server, fs: FileSystem, content: Content, title: string)
    requires forall m :: m in server.globalManagers ==> !ManagerWanted(m, Some(title), No)
    ensures UpdatePlan(server, fs, None, Some(content), Some(title), None) ==
            Err(ValueError("template " + title + " does not exist"))
  {
    var req := ManagersRequest(Some(title), No, No).value;
    forall m | m in server.globalManagers ensures !ManagerFilter(req)(m) {
    }
    FilterNone(server.globalManagers, ManagerFilter(req));
  }

  /** update_template: the POST of the new version, then the set-current
      PATCH when asked, then the disable_old PATCHes when asked. */
  function UpdateRequests(server: Server, fs: FileSystem, filename: Option<string>, content: Option<Content>,
                          title: Option<string>, tm: Option<TemplateManager>, setCurrent: bool, disableOld: bool,
                          newId: Id): (r: Result<seq<Request>>)
    ensures r.Ok? <==> UpdatePlan(server, fs, filename, content, title, tm).Ok?
    ensures r.Err? ==> r.error == UpdatePlan(server, fs, filename, content, title, tm).error
    ensures r.Ok? ==>
      var (m, post) := UpdatePlan(server, fs, filename, content, title, tm).value;
      r.value == [post]
        + (if setCurrent then [Patch(VersionPath(newId, MakeCurrent), map[])] else [])
        + (if disableOld then DisableRequests(OldVersions(m, setCurrent)) else [])
  {
    var plan :- UpdatePlan(server, fs, filename, content, title, tm);
    Ok([plan.1]
       + (if setCurrent then [Patch(VersionPath(newId, MakeCurrent), map[])] else [])
       + (if disableOld then DisableRequests(OldVersions(plan.0, setCurrent)) else []))
  }

  /** The statements of update_template, in order. */
  method UpdateTemplate(server: Server, fs: FileSystem, filename: Option<string>, content: Option<Content>,
                        title: Option<string>, tm: Option<TemplateManager>, setCurrent: bool, disableOld: bool,
                        newId: Id) returns (r: Result<seq<Request>>)
    ensures r == UpdateRequests(server, fs, filename, content, title, tm, setCurrent, disableOld, newId)
  {
    var plan := UpdatePlan(server, fs, filename, content, title, tm);
    if plan.Err? {
      return Err(plan.error);
    }
    var current: seq<Request> := [];
    if setCurrent {
      var request := VersionRequest(server, MakeCurrent, None, None, None, Some(newId));
      current := [request.value];
    }
    var disables: seq<Request> := [];
    if disableOld {
      disables := DisableOld(plan.value.0, setCurrent);
    }
    return Ok([plan.value.1] + current + disables);
  }

  /** The template documents of the test fixture, with their integer ids. */
  function FixtureDocs(): map<Id, TemplateDoc> {
    map[StrId("firsthash1") := TemplateDoc(IntId(1), "first.xsd"),
        StrId("secondhash1") := TemplateDoc(IntId(2), "second.xsd"),
        StrId("secondhash2") := TemplateDoc(IntId(3), "second.xsd"),
        StrId("thirdhash1") := TemplateDoc(IntId(4), "third.xsd")]
  }

  /** The fixture's active global managers are `first` and `second`. */
  lemma FixtureActiveManagers(server: Server)
    requires server.globalManagers == FixtureManagers()
    ensures GetTemplateManagers(server, None, No, No) == Ok(FixtureManagers()[..2])
  {
    var ms := FixtureManagers();
    var req := ManagersRequest(None, No, No).value;
    assert req.params == map[];
    var keep := ManagerFilter(req);
    assert ms == ms[..2] + [ms[2]];
    FilterSnoc(ms[..2], ms[2], keep);
    FilterAll(ms[..2], keep);
  }

  /** get_templates on the fixture: the current templates of `first` and
      `second` (ids 1 and 3), or all three of their versions (ids 1, 2, 3). */
  lemma GetTemplatesOnFixture(server: Server)
    requires server.globalManagers == FixtureManagers() && server.templateDocs == FixtureDocs()
    ensures TemplateListing(server, None, No, Yes, No) ==
      Ok([Template(IntId(1), "first.xsd", "first"), Template(IntId(3), "second.xsd", "second")])
    ensures TemplateListing(server, None, No, No, No) ==
      Ok([Template(IntId(1), "first.xsd", "first"), Template(IntId(2), "second.xsd", "second"),
          Template(IntId(3), "second.xsd", "second")])
  {
    FixtureActiveManagers(server);
    FixtureSlots();
    FixtureRows(server);
  }

  lemma FixtureRows(server: Server)
    requires server.templateDocs == FixtureDocs()
    ensures FetchRows(server, [(StrId("firsthash1"), "first"), (StrId("secondhash2"), "second")]) ==
      Ok([Template(IntId(1), "first.xsd", "first"), Template(IntId(3), "second.xsd", "second")])
    ensures FetchRows(server, [(StrId("firsthash1"), "first"), (StrId("secondhash1"), "second"), (StrId("secondhash2"), "second")]) ==
      Ok([Template(IntId(1), "first.xsd", "first"), Template(IntId(2), "second.xsd", "second"),
          Template(IntId(3), "second.xsd", "second")])
  {
    var s1 := (StrId("firsthash1"), "first");
    var s2 := (StrId("secondhash1"), "second");
    var s3 := (StrId("secondhash2"), "second");
    var r1 := Template(IntId(1), "first.xsd", "first");
    var r2 := Template(IntId(2), "second.xsd", "second");
    var r3 := Template(IntId(3), "second.xsd", "second");
    FixtureLookups();
    var none: seq<Slot> := [];
    var e: seq<Template> := [];
    FetchOne(server, none, e, s1);
    assert none + [s1] == [s1] && e + [r1] == [r1];
    FetchOne(server, [s1], [r1], s3);
    assert [s1] + [s3] == [s1, s3] && [r1] + [r3] == [r1, r3];
    FetchOne(server, [s1], [r1], s2);
    assert [s1] + [s2] == [s1, s2] && [r1] + [r2] == [r1, r2];
    FetchOne(server, [s1, s2], [r1, r2], s3);
    assert [s1, s2] + [s3] == [s1, s2, s3] && [r1, r2] + [r3] == [r1, r2, r3];
  }

  /** The fixture's documents of `first` and `second`. */
  lemma FixtureLookups()
    ensures StrId("firsthash1") in FixtureDocs() && FixtureDocs()[StrId("firsthash1")] == TemplateDoc(IntId(1), "first.xsd")
    ensures StrId("secondhash1") in FixtureDocs() && FixtureDocs()[StrId("secondhash1")] == TemplateDoc(IntId(2), "second.xsd")
    ensures StrId("secondhash2") in FixtureDocs() && FixtureDocs()[StrId("secondhash2")] == TemplateDoc(IntId(3), "second.xsd")
  {
    assert "secondhash1"[10] != "secondhash2"[10];
    assert |"firsthash1"| != |"secondhash1"| && |"thirdhash1"| != |"secondhash1"|;
  }

  /** A slot whose document exists adds its row. */
  lemma FetchOne(server: Server, slots: seq<Slot>, rows: seq<Template>, x: Slot)
    requires FetchRows(server, slots) == Ok(rows) && x.0 in server.templateDocs
    ensures FetchRows(server, slots + [x]) == Ok(rows + [RowOf(server.templateDocs[x.0], x.1)])
  {
    FetchRowsSnoc(server, slots, x);
  }

  lemma FixtureSlots()
    ensures Slots(FixtureManagers()[..2], true) == [(StrId("firsthash1"), "first"), (StrId("secondhash2"), "second")]
    ensures Slots(FixtureManagers()[..2], false) ==
      [(StrId("firsthash1"), "first"), (StrId("secondhash1"), "second"), (StrId("secondhash2"), "second")]
  {
    var ms := FixtureManagers()[..2];
    assert ms[..2] == ms && ms[..0] == [];
    SlotsNext(ms, 0, true);
    SlotsNext(ms, 1, true);
    SlotsNext(ms, 0, false);
    SlotsNext(ms, 1, false);
    assert ManagerSlots(ms[1], false) == [(StrId("secondhash1"), "second"), (StrId("secondhash2"), "second")];
    assert ManagerSlots(ms[0], false) == [(StrId("firsthash1"), "first")];
  }
}
