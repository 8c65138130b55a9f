/** `query`: the request the search sends (mode, template ids, title), the
    page-by-page accumulation of the results with its final count check,
    and the join of each record with its template's title. */
module Query {
  import opened Wrappers
  import opened Aslist
  import opened Identity
  import opened Curator
  import opened Templates
  import opened JsonIds

  // ----- search mode -----

  const KeywordPath := "/rest/data/query/keyword/"
  const QueryPath := "/rest/data/query/"

  /** A mongoquery argument: a string, or another object together with the
      text `json.dumps` makes of it. */
  datatype Mongo = MongoText(s: string) | MongoObject(dumped: string)

  /** The endpoint and the `query` field of the search. */
  datatype Mode = Mode(path: string, query: Value)

  /** Keyword search, mongo search or the match-all query; both kinds of
      search at once is an error. */
  function QueryMode(keyword: Option<Value>, mongo: Option<Mongo>): (r: Result<Mode>)
    ensures r.Err? <==> keyword.Some? && mongo.Some?
    ensures r.Err? ==> r.error == ValueError("keyword and mongoquery cannot both be given")
    ensures r.Ok? && keyword.Some? ==> r.value == Mode(KeywordPath, keyword.value)
    ensures r.Ok? && keyword.None? ==> r.value.path == QueryPath
    ensures mongo.Some? && mongo.value.MongoText? && keyword.None? ==> r.value.query == VStr(mongo.value.s)
    ensures mongo.Some? && mongo.value.MongoObject? && keyword.None? ==> r.value.query == VStr(mongo.value.dumped)
    ensures mongo.None? && keyword.None? ==> r.value.query == VStr("{}")
  {
    if keyword.Some? then
      if mongo.Some? then Err(ValueError("keyword and mongoquery cannot both be given"))
      else Ok(Mode(KeywordPath, keyword.value))
    else if mongo.Some? then Ok(Mode(QueryPath, VStr(QueryText(mongo.value))))
    else Ok(Mode(QueryPath, VStr("{}")))
  }

  /** The text a mongoquery is sent as. */
  function QueryText(m: Mongo): string {
    match m
    case MongoText(s) => s
    case MongoObject(dumped) => dumped
  }

  // ----- template ids -----

  /** One item of a `template` argument other than a DataFrame: a Series
      (a row of get_templates), or a template title. */
  datatype TemplateItem = SeriesItem(row: Template) | TitleItem(title: string)

  /** A `template` argument: a DataFrame of templates, or a term that
      `aslist` turns into items. */
  datatype TemplateArg = Frame(rows: seq<Template>) | Items(term: Term<TemplateItem>)

  function TitleMask(t: string): Template -> bool {
    (x: Template) => x.title == t
  }

  /** The id one item contributes: a Series its own, a title that of the
      single template with that title.  With no templates at all the listing
      is a DataFrame without a `title` column. */
  function ResolveItem(templates: seq<Template>, item: TemplateItem): (r: Result<Id>)
    ensures item.SeriesItem? ==> r == Ok(item.row.id)
    ensures item.TitleItem? && templates == [] ==> r == Err(AttributeError("title"))
    ensures item.TitleItem? && templates != [] ==>
      (r.Ok? <==> |Filter(templates, TitleMask(item.title))| == 1)
    ensures item.TitleItem? && r.Ok? ==> r.value == Filter(templates, TitleMask(item.title))[0].id
    ensures item.TitleItem? && templates != [] && r.Err? ==>
      r.error == ValueError("template " + item.title + " not uniquely found")
  {
    match item
    case SeriesItem(row) => Ok(row.id)
    case TitleItem(t) =>
      if templates == [] then Err(AttributeError("title"))
      else
        var matches := Filter(templates, TitleMask(t));
        if |matches| == 1 then Ok(matches[0].id)
        else Err(ValueError("template " + t + " not uniquely found"))
  }

  /** The ids of the items, in order; the first item that does not resolve
      is the error. */
  function ItemIds(templates: seq<Template>, items: seq<TemplateItem>): (r: Result<seq<Id>>)
    ensures r.Ok? <==> forall k :: 0 <= k < |items| ==> ResolveItem(templates, items[k]).Ok?
    ensures r.Ok? ==> |r.value| == |items|
    ensures r.Ok? ==> forall k :: 0 <= k < |items| ==> ResolveItem(templates, items[k]) == Ok(r.value[k])
    decreases |items|
  {
    if items == [] then Ok([])
    else
      var front := ItemIds(templates, items[..|items| - 1]);
      assert forall k :: 0 <= k < |items| - 1 ==> items[..|items| - 1][k] == items[k];
      if front.Err? then Err(front.error)
      else
        var last := ResolveItem(templates, items[|items| - 1]);
        if last.Err? then Err(last.error)
        else Ok(front.value + [last.value])
  }

  function FrameIds(rows: seq<Template>): (r: seq<Id>)
    ensures |r| == |rows| && forall k :: 0 <= k < |rows| ==> r[k] == rows[k].id
  {
    seq(|rows|, k requires 0 <= k < |rows| => rows[k].id)
  }

  /** The ids the `templates` field lists. */
  function TemplateIds(templates: seq<Template>, arg: TemplateArg): (r: Result<seq<Id>>)
    ensures arg.Frame? ==> r == Ok(FrameIds(arg.rows))
    ensures arg.Items? ==> r == ItemIds(templates, AsList(arg.term))
  {
    match arg
    case Frame(rows) => Ok(FrameIds(rows))
    case Items(term) => ItemIds(templates, AsList(term))
  }

  lemma ItemIdsSnoc(templates: seq<Template>, items: seq<TemplateItem>, ids: seq<Id>, x: TemplateItem, id: Id)
    requires ItemIds(templates, items) == Ok(ids)
    requires ResolveItem(templates, x) == Ok(id)
    ensures ItemIds(templates, items + [x]) == Ok(ids + [id])
  {
    assert (items + [x])[..|items|] == items;
  }

  /** The loops that build `data['templates']`, one append per id. */
  method TemplateIdList(templates: seq<Template>, arg: TemplateArg) returns (r: Result<seq<Id>>)
    ensures r == TemplateIds(templates, arg)
  {
    match arg {
      case Frame(rows) =>
        var ids := FrameIdList(rows);
        r := Ok(ids);
      case Items(term) =>
        r := ItemIdList(templates, AsList(term));
    }
  }

  /** The loop over a DataFrame's rows. */
  method FrameIdList(rows: seq<Template>) returns (ids: seq<Id>)
    ensures ids == FrameIds(rows)
  {
    ids := [];
    for i := 0 to |rows|
      invariant ids == FrameIds(rows[..i])
    {
      FrameIdsSnoc(rows, i);
      ids := ids + [rows[i].id];
    }
    assert rows[..|rows|] == rows;
  }

  lemma FrameIdsSnoc(rows: seq<Template>, i: nat)
    requires i < |rows|
    ensures FrameIds(rows[..i + 1]) == FrameIds(rows[..i]) + [rows[i].id]
  {
  }

  /** The loop over the items of `aslist(template)`. */
  method ItemIdList(templates: seq<Template>, items: seq<TemplateItem>) returns (r: Result<seq<Id>>)
    ensures r == ItemIds(templates, items)
  {
    var ids: seq<Id> := [];
    for i := 0 to |items|
      invariant ItemIds(templates, items[..i]) == Ok(ids)
    {
      var id := ResolveItem(templates, items[i]);
      if id.Err? {
        ItemIdsFailed(templates, items, i);
        return Err(id.error);
      }
      ItemIdsNext(templates, items, i, ids, id.value);
      ids := ids + [id.value];
    }
    assert items[..|items|] == items;
    return Ok(ids);
  }

  lemma ItemIdsNext(templates: seq<Template>, items: seq<TemplateItem>, i: nat, ids: seq<Id>, id: Id)
    requires i < |items| && ItemIds(templates, items[..i]) == Ok(ids)
    requires ResolveItem(templates, items[i]) == Ok(id)
    ensures ItemIds(templates, items[..i + 1]) == Ok(ids + [id])
  {
    ItemIdsSnoc(templates, items[..i], ids, items[i], id);
    assert items[..i] + [items[i]] == items[..i + 1];
  }

  /** The first item that fails is the error of the whole list. */
  lemma ItemIdsFailed(templates: seq<Template>, items: seq<TemplateItem>, i: nat)
    requires i < |items|
    requires ItemIds(templates, items[..i]).Ok?
    requires ResolveItem(templates, items[i]).Err?
    ensures ItemIds(templates, items) == Err(ResolveItem(templates, items[i]).error)
  {
    assert items[..i] + [items[i]] == items[..i + 1];
    ItemIdsSnocFailed(templates, items[..i], items[i]);
    assert items[..i + 1] + items[i + 1..] == items;
    ItemIdsErrAppend(templates, items[..i + 1], items[i + 1..]);
  }

  lemma ItemIdsSnocFailed(templates: seq<Template>, items: seq<TemplateItem>, x: TemplateItem)
    requires ItemIds(templates, items).Ok? && ResolveItem(templates, x).Err?
    ensures ItemIds(templates, items + [x]) == Err(ResolveItem(templates, x).error)
  {
    assert (items + [x])[..|items|] == items;
  }

  /** Once the list has failed, further items keep its error. */
  lemma {:induction false} ItemIdsErrAppend(templates: seq<Template>, items: seq<TemplateItem>, more: seq<TemplateItem>)
    requires ItemIds(templates, items).Err?
    ensures ItemIds(templates, items + more) == ItemIds(templates, items)
    decreases |more|
  {
    if more == [] {
      assert items + more == items;
    } else {
      var front := more[..|more| - 1];
      assert items + more == (items + front) + [more[|more| - 1]];
      ItemIdsErrAppend(templates, items, front);
      assert (items + more)[..|items + more| - 1] == items + front;
    }
  }

  /** A title held by exactly one template contributes that template's id. */
  lemma {:induction false} TitleOfUniqueTemplate(templates: seq<Template>, t: string, i: nat)
    requires UniqueMatch(templates, TitleMask(t), i)
    ensures ResolveItem(templates, TitleItem(t)) == Ok(templates[i].id)
  {
    FilterOfUnique(templates, TitleMask(t), i);
  }

  /** A title that no template holds is not uniquely found. */
  lemma TitleOfUnknownTemplate(templates: seq<Template>, t: string)
    requires templates != []
    requires forall x :: x in templates ==> x.title != t
    ensures ResolveItem(templates, TitleItem(t)) == Err(ValueError("template " + t + " not uniquely found"))
  {
    FilterNone(templates, TitleMask(t));
  }

  // ----- the request -----

  /** The `data` of every POST of the search. */
  function QueryData(templates: seq<Template>, template: Option<TemplateArg>, title: Option<string>,
                     keyword: Option<Value>, mongo: Option<Mongo>): (r: Result<(string, map<string, Value>)>)
    ensures r.Ok? <==> QueryMode(keyword, mongo).Ok? &&
                       (template.Some? ==> TemplateIds(templates, template.value).Ok?)
    ensures r.Ok? ==> r.value.0 == QueryMode(keyword, mongo).value.path
    ensures r.Ok? ==> "query" in r.value.1 && r.value.1["query"] == QueryMode(keyword, mongo).value.query
    ensures r.Ok? ==> ("templates" in r.value.1 <==> template.Some?)
    ensures r.Ok? && template.Some? ==>
      r.value.1["templates"] == VStr(DumpIdRefs(TemplateIds(templates, template.value).value))
    ensures r.Ok? ==> ("title" in r.value.1 <==> title.Some?)
    ensures r.Ok? && title.Some? ==> r.value.1["title"] == VStr(title.value)
    ensures r.Ok? ==> r.value.1.Keys <= {"query", "templates", "title"}
  {
    var mode :- QueryMode(keyword, mongo);
    var data := map["query" := mode.query];
    var data :- if template.None? then Ok(data)
                else
                  var ids :- TemplateIds(templates, template.value);
                  Ok(data["templates" := VStr(DumpIdRefs(ids))]);
    var data := if title.Some? then data["title" := VStr(title.value)] else data;
    Ok((mode.path, data))
  }

  // ----- pagination -----

  /** One response of the search endpoint. */
  datatype Page = Page(count: int, next: Option<string>, results: seq<DataRecord>)

  /** The index of the first page without a `next` link. */
  function LastPage(pages: seq<Page>): (r: Option<nat>)
    ensures r.Some? ==> r.value < |pages| && pages[r.value].next.None? &&
                        forall j :: 0 <= j < r.value ==> pages[j].next.Some?
    ensures r.None? ==> forall j :: 0 <= j < |pages| ==> pages[j].next.Some?
  {
    if pages == [] then None
    else if pages[0].next.None? then Some(0)
    else match LastPage(pages[1..])
      case None => None
      case Some(k) => Some(k + 1)
  }

  /** The results of the pages, in order. */
  function Concat(pages: seq<Page>): (r: seq<DataRecord>)
    ensures forall x :: x in r <==> exists k :: 0 <= k < |pages| && x in pages[k].results
    decreases |pages|
  {
    if pages == [] then []
    else
      var front := pages[..|pages| - 1];
      assert forall k :: 0 <= k < |front| ==> front[k] == pages[k];
      Concat(front) + pages[|pages| - 1].results
  }

  /** The records of a search whose server answers the k-th POST with
      `pages[k]`: the pages up to the first without `next`, whose `count`
      they must total.  A server with no answer left is a ConnectionError. */
  function Collect(pages: seq<Page>): (r: Result<seq<DataRecord>>)
    ensures LastPage(pages).None? ==> r == Err(ConnectionError)
    ensures LastPage(pages).Some? ==>
      var n := LastPage(pages).value;
      var records := Concat(pages[..n + 1]);
      if |records| == pages[n].count then r == Ok(records) else r == Err(AssertionError)
  {
    match LastPage(pages)
    case None => Err(ConnectionError)
    case Some(n) =>
      var records := Concat(pages[..n + 1]);
      if |records| == pages[n].count then Ok(records) else Err(AssertionError)
  }

  /** The k-th POST of the search: the first has no params, then page 2, 3, ... */
  function PageRequest(path: string, data: map<string, Value>, k: nat): (r: Request)
    ensures r.verb == POST && r.path == path && r.data == data
    ensures k == 0 ==> r.params == map[]
    ensures k > 0 ==> r.params == map["page" := VInt(k + 1)]
  {
    Post(path, if k == 0 then map[] else map["page" := VInt(k + 1)], data)
  }

  /** How many POSTs the search makes: up to the last page, or one past the
      scripted pages when none is the last. */
  function PostCount(pages: seq<Page>): (n: nat)
    ensures n >= 1
  {
    match LastPage(pages)
    case Some(k) => k + 1
    case None => |pages| + 1
  }

  function Posts(path: string, data: map<string, Value>, n: nat): (r: seq<Request>)
    ensures |r| == n && forall k :: 0 <= k < n ==> r[k] == PageRequest(path, data, k)
  {
    seq(n, k requires 0 <= k < n => PageRequest(path, data, k))
  }

  lemma PostsSnoc(path: string, data: map<string, Value>, n: nat)
    ensures Posts(path, data, n + 1) == Posts(path, data, n) + [PageRequest(path, data, n)]
  {
  }

  lemma ConcatSnoc(pages: seq<Page>, k: nat)
    requires k < |pages|
    ensures Concat(pages[..k + 1]) == Concat(pages[..k]) + pages[k].results
  {
    assert pages[..k + 1][..k] == pages[..k];
  }

  /** The while loop of query: post for the next page while the last
      response has a `next` link, extending the records, then check the
      total against the last response's `count`. */
  method CollectPages(pages: seq<Page>, path: string, data: map<string, Value>)
    returns (r: Result<seq<DataRecord>>, sent: seq<Request>)
    ensures r == Collect(pages)
    ensures sent == Posts(path, data, PostCount(pages))
  {
    sent := [PageRequest(path, data, 0)];
    assert sent == Posts(path, data, 1);
    if |pages| == 0 {
      return Err(ConnectionError), sent;
    }
    var k := 0;
    var page := pages[0];
    var records := page.results;
    var pageNo := 2;
    assert Concat(pages[..1]) == records by {
      ConcatSnoc(pages, 0);
    }
    while page.next.Some?
      invariant 0 <= k < |pages| && page == pages[k]
      invariant forall j :: 0 <= j < k ==> pages[j].next.Some?
      invariant records == Concat(pages[..k + 1])
      invariant pageNo == k + 2
      invariant sent == Posts(path, data, k + 1)
      decreases |pages| - k
    {
      PostsSnoc(path, data, k + 1);
      sent := sent + [Post(path, map["page" := VInt(pageNo)], data)];
      if k + 1 == |pages| {
        return Err(ConnectionError), sent;
      }
      k := k + 1;
      page := pages[k];
      ConcatSnoc(pages, k);
      records := records + page.results;
      pageNo := pageNo + 1;
    }
    LastPageAt(pages, k);
    if |records| != page.count {
      return Err(AssertionError), sent;
    }
    return Ok(records), sent;
  }

  /** The first page without `next` is the last page. */
  lemma {:induction false} LastPageAt(pages: seq<Page>, k: nat)
    requires k < |pages| && pages[k].next.None?
    requires forall j :: 0 <= j < k ==> pages[j].next.Some?
    ensures LastPage(pages) == Some(k)
  {
    if k > 0 {
      LastPageAt(pages[1..], k - 1);
    }
  }

  /** A first page of ten records with a `next` link and a last page of
      two, counted as twelve, give the twelve records in order. */
  lemma TwoPages(p1: Page, p2: Page)
    requires p1.next.Some? && p2.next.None?
    requires p2.count == |p1.results| + |p2.results|
    ensures Collect([p1, p2]) == Ok(p1.results + p2.results)
    ensures PostCount([p1, p2]) == 2
  {
    var pages := [p1, p2];
    LastPageAt(pages, 1);
    assert pages[..2] == pages;
    ConcatSnoc(pages, 1);
    ConcatSnoc(pages, 0);
    assert pages[..0] == [];
    assert Concat(pages[..1]) == p1.results;
    assert Concat(pages) == p1.results + p2.results;
  }

  /** A total that disagrees with the last `count` fails the assertion. */
  lemma CountMismatch(pages: seq<Page>, n: nat)
    requires LastPage(pages) == Some(n)
    requires |Concat(pages[..n + 1])| != pages[n].count
    ensures Collect(pages) == Err(AssertionError)
  {
  }

  // ----- template titles -----

  /** A record of the result with the title of its template. */
  datatype TitledRecord = TitledRecord(record: DataRecord, templateTitle: string)

  /** The title of the first template with id `id`; none is pandas'
      IndexError of `iloc[0]`. */
  function TitleOf(templates: seq<Template>, id: Id): (r: Result<string>)
    ensures r.Ok? <==> exists k :: 0 <= k < |templates| && templates[k].id == id
    ensures r.Ok? ==> exists k :: 0 <= k < |templates| && templates[k].id == id && r.value == templates[k].title &&
                                  forall j :: 0 <= j < k ==> templates[j].id != id
    ensures r.Err? ==> r.error == IndexError("single positional indexer is out-of-bounds")
  {
    if templates == [] then Err(IndexError("single positional indexer is out-of-bounds"))
    else if templates[0].id == id then Ok(templates[0].title)
    else
      var rest := TitleOf(templates[1..], id);
      assert forall k :: 1 <= k < |templates| ==> templates[1..][k - 1] == templates[k];
      rest
  }

  function TitleRows(templates: seq<Template>, records: seq<DataRecord>): (r: Result<seq<TitledRecord>>)
    ensures r.Ok? <==> forall k :: 0 <= k < |records| ==> TitleOf(templates, records[k].template).Ok?
    ensures r.Ok? ==> |r.value| == |records|
    ensures r.Ok? ==> forall k :: 0 <= k < |records| ==>
      r.value[k] == TitledRecord(records[k], TitleOf(templates, records[k].template).value)
    decreases |records|
  {
    if records == [] then Ok([])
    else
      var t :- TitleOf(templates, records[0].template);
      var rest :- TitleRows(templates, records[1..]);
      assert forall k :: 1 <= k < |records| ==> records[1..][k - 1] == records[k];
      Ok([TitledRecord(records[0], t)] + rest)
  }

  /** The `template_title` column, added only when there are records; with
      no templates the listing has no `id` column. */
  function JoinTitles(templates: seq<Template>, records: seq<DataRecord>): (r: Result<seq<TitledRecord>>)
    ensures records == [] ==> r == Ok([])
    ensures records != [] && templates == [] ==> r == Err(AttributeError("id"))
    ensures records != [] && templates != [] ==> r == TitleRows(templates, records)
  {
    if |records| == 0 then Ok([])
    else if templates == [] then Err(AttributeError("id"))
    else TitleRows(templates, records)
  }

  // ----- the whole search -----

  /** What query returns: the current active global templates are listed
      first, then the data is built, the pages collected and the titles
      joined. */
  function QueryResult(server: Server, pages: seq<Page>, template: Option<TemplateArg>, title: Option<string>,
                       keyword: Option<Value>, mongo: Option<Mongo>): (r: Result<seq<TitledRecord>>)
    ensures r.Ok? ==> TemplateListing(server, None, No, Yes, No).Ok? && Collect(pages).Ok? &&
                      |r.value| == |Collect(pages).value|
    ensures r.Ok? ==> forall k :: 0 <= k < |r.value| ==> r.value[k].record == Collect(pages).value[k]
  {
    var templates :- TemplateListing(server, None, No, Yes, No);
    var (_, _) :- QueryData(templates, template, title, keyword, mongo);
    var records :- Collect(pages);
    JoinTitles(templates, records)
  }

  /** The POSTs query sends: none when it fails before posting. */
  function QuerySent(server: Server, pages: seq<Page>, template: Option<TemplateArg>, title: Option<string>,
                     keyword: Option<Value>, mongo: Option<Mongo>): (r: seq<Request>)
    ensures r != [] ==> r[0] == Post(r[0].path, map[], r[0].data)
    ensures forall k :: 1 <= k < |r| ==> r[k].params == map["page" := VInt(k + 1)]
  {
    var templates := TemplateListing(server, None, No, Yes, No);
    if templates.Err? then []
    else
      var data := QueryData(templates.value, template, title, keyword, mongo);
      if data.Err? then [] else Posts(data.value.0, data.value.1, PostCount(pages))
  }

  method Query(server: Server, pages: seq<Page>, template: Option<TemplateArg>, title: Option<string>,
               keyword: Option<Value>, mongo: Option<Mongo>)
    returns (r: Result<seq<TitledRecord>>, sent: seq<Request>)
    ensures r == QueryResult(server, pages, template, title, keyword, mongo)
    ensures sent == QuerySent(server, pages, template, title, keyword, mongo)
  {
    sent := [];
    var listing := GetTemplates(server, None, No, Yes, No);
    if listing.Err? {
      return Err(listing.error), sent;
    }
    var templates := listing.value;
    var request := BuildData(templates, template, title, keyword, mongo);
    if request.Err? {
      return Err(request.error), sent;
    }
    var (path, data) := request.value;
    var records;
    records, sent := CollectPages(pages, path, data);
    if records.Err? {
      return Err(records.error), sent;
    }
    r := JoinTitles(templates, records.value);
  }

  /** The statements that fill `data` before the first POST. */
  method BuildData(templates: seq<Template>, template: Option<TemplateArg>, title: Option<string>,
                   keyword: Option<Value>, mongo: Option<Mongo>) returns (r: Result<(string, map<string, Value>)>)
    ensures r == QueryData(templates, template, title, keyword, mongo)
  {
    var mode := QueryMode(keyword, mongo);
    if mode.Err? {
      return Err(mode.error);
    }
    var data := map["query" := mode.value.query];
    if template.Some? {
      var ids := TemplateIdList(templates, template.value);
      if ids.Err? {
        return Err(ids.error);
      }
      data := data["templates" := VStr(DumpIdRefs(ids.value))];
    }
    if title.Some? {
      data := data["title" := VStr(title.value)];
    }
    return Ok((mode.value.path, data));
  }

  // ----- the test scenario -----

  /** The current templates the fixture lists. */
  function FixtureTemplates(): seq<Template> {
    [Template(IntId(1), "first.xsd", "first"), Template(IntId(3), "second.xsd", "second")]
  }

  /** The title `first` resolves to the integer id 1. */
  lemma FirstTitleIds()
    ensures TemplateIds(FixtureTemplates(), Items(Atom(StrAtom, TitleItem("first")))) == Ok([IntId(1)])
  {
    var templates := FixtureTemplates();
    assert templates[1].title == "second" != "first";
    assert UniqueMatch(templates, TitleMask("first"), 0);
    TitleOfUniqueTemplate(templates, "first", 0);
    AsListIsIAsList(Atom(StrAtom, TitleItem("first")));
    var none: seq<TemplateItem> := [];
    var noIds: seq<Id> := [];
    assert ItemIds(templates, none) == Ok(noIds);
    ItemIdsSnoc(templates, none, noIds, TitleItem("first"), IntId(1));
    assert none + [TitleItem("first")] == [TitleItem("first")];
    assert noIds + [IntId(1)] == [IntId(1)];
  }

  /** On the template fixture, the title `first` is sent as the integer id
      of its current template. */
  lemma QueryByFirstTitle(server: Server)
    requires server.globalManagers == FixtureManagers() && server.templateDocs == FixtureDocs()
    ensures TemplateListing(server, None, No, Yes, No) == Ok(FixtureTemplates())
    ensures QueryData(FixtureTemplates(), Some(Items(Atom(StrAtom, TitleItem("first")))), None, None, None) ==
            Ok((QueryPath, map["query" := VStr("{}"), "templates" := VStr("[{\"id\": 1}]")]))
  {
    GetTemplatesOnFixture(server);
    FirstTitleIds();
    DumpIdRefsNative();
  }
}
