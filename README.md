# pycdcs client core, modelled in Dafny

This project models the client side of pycdcs, a Python client for the
Configurable Data Curation System (CDCS) REST API. It covers:

- the generic `RestClient`: login normalisation, and the URL, basic-auth and
  certificate verification that each request derives from the stored login;
- the `CDCS` methods for template managers and templates, queries, data
  records, blobs, workspaces, XSLT transformations, PID xpaths and the
  `auto_set_pid` setting;
- the `aslist` helper;
- the test helper `v2_convert`.

Each call is modelled by what it decides before and after talking to the
curator:

- which request it sends (verb, path, params, data, files);
- which rows it keeps from a listing;
- which exception it raises, with its message;
- what it returns.

Python exceptions are `Err` values of one `Error` datatype (module
`Wrappers`).

The curator is a snapshot value, `Curator.Server`. It holds the template
managers, the template documents, records, blobs and their contents,
workspaces, XSLTs, PID xpaths and the `auto_set_pid` setting.

Server-side filtering is an assumption of the model:

- template managers by `title` and `is_disabled`;
- `/rest/data/` by `templates` and `title`;
- `/rest/blob/` by `filename`.

`Curator.ListManagers`, `Curator.ListRecords` and `Curator.ListBlobs` state
this filtering as membership conditions. The query's pages are a scripted
sequence of responses. The file system is a map from path to bytes. The
username and password prompts are fixed answers.

Code that loops or changes state in the source is imperative here, and each
such method is proved equal to a specification function:

- `Templates.GetTemplates` has the nested fetch loops.
- `Templates.DisableOld` is the `disable_old` loop.
- `Query.TemplateIdList` builds the template-id list.
- `Query.CollectPages` is the pagination loop.
- `Query.Query` is the whole search.
- `MockDatabase.V2Convert` overwrites fields in place.
- `Pid.PidSettings` is the setting, with its setter and the
  `auto_set_pid_off` bracket.
- `Rest.RestClient` is the client, whose login assigns its fields.

Partner lemmas relate these functions to one another:

- the id-list JSON round trip;
- the strip and decimal round trips;
- the exactly-one accessors against their filters;
- the download/contents agreement;
- the pid bracket ending on;
- idempotence of the v2 conversion.

`cdcs/CDCS/_pid.py:51-207` repeats the functions of
`cdcs/CDCS/_pid_xpath.py` line for line. Both copies are modelled once, in
module `PidXpaths`.

`cdcs/CDCS/__init__.py:13-22` binds these functions as `CDCS` methods:

- the template listing functions;
- `query`;
- the record, blob and workspace functions.

It binds none of the XSLT, PID or version-operation functions
(`disable_template` and the like). The model still covers all of them as
functions of their `self` argument.

## Model

| member | source | states |
|---|---|---|
| Curator.IdText | cdcs/CDCS/_record.py:197 | an id's text in a URL: a string id as itself, an integer id as its decimal form, which parses back to the integer |
| Curator.ListManagers | cdcs/CDCS/_template.py:46-54 | a manager listing holds exactly the managers of the global or user listing that match the request's `title` and `is_disabled` (server-side filter, stated as membership) |
| Curator.FetchTemplateDoc | cdcs/CDCS/_template.py:175-177 | `GET /rest/template/{id}/` answers the stored document, or raises HTTP 404 for an unknown id |
| Curator.ListRecords | cdcs/CDCS/_record.py:41-44 | a record listing holds exactly the records whose template is among the `templates` param and whose title equals the `title` param, when given |
| Curator.ListBlobs | cdcs/CDCS/_blob.py:58-61 | a blob listing holds exactly the blobs with the `filename` param, when given |
| Curator.FindBlob | cdcs/CDCS/_blob.py:91-93 | `GET /rest/blob/{id}` answers a blob with that id, or raises 404 when no blob has it |
| Curator.FetchBlobContent | cdcs/CDCS/_blob.py:119-121 | the download answers the stored bytes exactly when the blob has content, and the 404 error otherwise |
| Curator.ReadFile | cdcs/CDCS/_template.py:296-298 | `open(path, 'rb').read()` succeeds exactly for an existing file, with its bytes; otherwise FileNotFound |
| Identity.Filter | cdcs/CDCS/_workspace.py:27-28 | a boolean-mask selection keeps exactly the rows the mask accepts, in order, never more rows than given |
| Identity.FilterAppend | cdcs/CDCS/_xslt.py:38-41 | masking distributes over concatenation |
| Identity.FilterIdempotent | cdcs/CDCS/_xslt.py:38-41 | masking twice by the same mask is masking once |
| Identity.SelectOne | cdcs/CDCS/_workspace.py:56-61 | the exactly-one rule of every `get_x`: success iff the listing has one row, that row; "No matching ... found" for none and "Multiple matching ... found" for more |
| Identity.FilterOfUnique | cdcs/CDCS/_xslt.py:72-75 | when exactly one row matches, the mask leaves exactly that row |
| Identity.FilterNone | cdcs/CDCS/_xslt.py:76-77 | when no row matches, the mask leaves nothing |
| Identity.UniqueOfSingletonFilter | cdcs/CDCS/_xslt.py:72-75 | a mask that leaves one row leaves the unique matching row |
| Identity.SelectOneOfFilter | cdcs/CDCS/_xslt.py:72-79 | selecting one from a mask succeeds iff exactly one row matches, and then returns that row |
| Identity.SelectOneOfFilterNone | cdcs/CDCS/_xslt.py:76-77 | selecting one from a mask raises "No matching" iff no row matches |
| Strings.IndexOf | cdcs/CDCS/_template.py:322 | `str.index`: the first position where the pattern occurs, or none when it occurs nowhere |
| Strings.IndexOfIsFirst | cdcs/CDCS/_template.py:322 | a first occurrence of the pattern is what `str.index` answers |
| Strings.IndexOfAbsent | cdcs/CDCS/_template.py:322 | a pattern that occurs nowhere makes `str.index` fail |
| Strings.IndexOfChar | cdcs/CDCS/_template.py:331-332 | the first position of a character, or none |
| Strings.DecimalString | cdcs/tests/mock_database/__init__.py:15 | `str(int)`: digits only for non-negative integers, a minus sign then digits for negative ones |
| Strings.DecimalRoundTrip | cdcs/tests/mock_database/__init__.py:15 | the decimal string of any integer parses back to that integer |
| Strings.DecimalInjective | cdcs/tests/mock_database/__init__.py:15 | distinct integers have distinct decimal strings |
| Strings.LStrip | cdcs/RestClient.py:132 | `lstrip(c)` removes exactly the leading run of `c` and keeps a suffix of the input |
| Strings.RStrip | cdcs/RestClient.py:69 | `rstrip(c)` removes exactly the trailing run of `c` and keeps a prefix of the input |
| Strings.Strip | cdcs/RestClient.py:69 | `strip(c)` leaves no `c` at either end |
| Strings.StripRemovesOnlyEnds | cdcs/RestClient.py:69 | `strip(c)` is a slice of the input, and everything it drops is `c` |
| Strings.StripIdempotent | cdcs/RestClient.py:69 | stripping is idempotent |
| Paths.Name | cdcs/CDCS/_template.py:305 | `Path(p).name` has no slash and is never `.` |
| Paths.Stem | cdcs/CDCS/_template.py:302 | `Path(p).stem` is a prefix of the name |
| Paths.NameOfPlain | cdcs/CDCS/_template.py:305 | a plain file name is its own name |
| Paths.NameAfterDirectory | cdcs/CDCS/_template.py:305 | `dir/s` has name `s` |
| Paths.StemOfFileName | cdcs/CDCS/_template.py:301-305 | `dir/base.ext` has name `base.ext` and stem `base` |
| Paths.JoinPath | cdcs/CDCS/_blob.py:150 | `Path(dir, name)` ends with the name, and an absolute name replaces the directory |
| Paths.NameOfJoin | cdcs/CDCS/_blob.py:150 | a plain file name saved into any directory keeps its name |
| Prologue.SniffEncoding | cdcs/CDCS/_template.py:320-333 | the encoding sniff: UTF-8 without `?>`, UTF-8 without `encoding` before it, otherwise the text between the next two double quotes; an error ("substring not found") when those quotes are missing |
| Prologue.SniffWithoutDeclaration | cdcs/CDCS/_template.py:326-329 | with `?>` but no `encoding` before it, the encoding is UTF-8 |
| Prologue.SniffDeclared | cdcs/CDCS/_template.py:330-333 | with `encoding` before `?>` and two quotes after it, the encoding is the quoted text |
| Prologue.SniffMissingQuote | cdcs/CDCS/_template.py:331-332 | with `encoding` before `?>` but not two quotes after it, the sniff raises |
| Prologue.SniffDeclarationRoundTrip | cdcs/CDCS/_template.py:320-333 | a standard XML declaration naming an encoding is sniffed back as that encoding |
| Prologue.EncodeContent | cdcs/CDCS/_template.py:319-337 | text is encoded with its sniffed encoding, bytes are sent unchanged, anything else is "content must be str or bytes" |
| Prologue.EncodeIfText | cdcs/CDCS/_xslt.py:224-238 | update_xslt's encoding: text encoded as in upload, bytes raw, any other content sent as given |
| Aslist.IAsList | cdcs/aslist.py:24-31 | `iaslist`: str, bytes and Series are one item; an iterable yields its items; a non-iterable is one item |
| Aslist.AsList | cdcs/aslist.py:48 | `aslist` is the list of what `iaslist` yields, item for item |
| Aslist.AsListIsIAsList | cdcs/aslist.py:33-48 | `aslist(term)` equals the `iaslist(term)` sequence |
| Aslist.AsListItems | cdcs/aslist.py:24-31 | an item is in `aslist(term)` iff it is an item of the iterable, or the term itself otherwise |
| Aslist.AsListIdempotent | cdcs/aslist.py:28-29 | `aslist` of a list made by `aslist` is the same list |
| Templates.ManagersRequest | cdcs/CDCS/_template.py:37-53 | the listing GET goes to the user path iff useronly is True, the global path iff False, and non-bool useronly raises TypeError; `title` is sent iff given and `is_disabled` iff True, and nothing else |
| Templates.GetTemplateManagers | cdcs/CDCS/_template.py:10-56 | the managers listed are exactly those of the chosen listing with the title and disabled state asked for; TypeError iff useronly is not a bool |
| Templates.Titles | cdcs/CDCS/_template.py:253 | the `title` column has one entry per manager, and its entries are exactly the managers' titles |
| Templates.TemplateTitles | cdcs/CDCS/_template.py:250-253 | `template_titles` holds exactly the titles of the active global managers; with none active the column is missing and it raises AttributeError |
| Templates.ResolveManager | cdcs/CDCS/_template.py:77-87 | title and template_manager exclude each other; neither is an error; a title gives an active global manager with that title, or KeyError 0 when none has it |
| Templates.DisableTemplateManager | cdcs/CDCS/_template.py:58-96 | a disable is the PATCH `/rest/template-version-manager/{id}/disable/` of the named manager: the given one when it is active (an already disabled one is refused), or by title the first active global manager listed with it (none is KeyError 0). Title and manager together, or neither, are the two ValueErrors |
| Templates.RestoreTemplateManagerAsWritten | cdcs/CDCS/_template.py:98-136 | the source's restore: a given manager is restored by the PATCH `.../{id}/restore/` iff disabled, else "template manager already active". By title, the listing of active managers gives "already active" or KeyError 0. Title and manager together, or neither, are the two ValueErrors |
| Templates.RestoreByTitleAlwaysFails | cdcs/CDCS/_template.py:123-130 | by title the source's restore never succeeds: the lookup lists only active managers, which the guard then refuses |
| Templates.RestoreTemplateManager | cdcs/CDCS/_template.py:98-136 | restore as intended: the PATCH `.../{id}/restore/` of the named manager: the given one when disabled, or by title the first disabled global manager listed with it (none is KeyError 0). Title and manager together, or neither, are the two ValueErrors |
| Templates.VersionGuard | cdcs/CDCS/_template.py:553-560 | the guard on the version picked: it passes iff the operation is allowed on that version; disabling or making current the current version gets its own message |
| Templates.VersionTarget | cdcs/CDCS/_template.py:524-557 | disable_template, restore_template and set_current_template resolve the same way. A template_id excludes title, manager and version. A manager needs a version, which must be in range (else IndexError). The result is that version's id, when the operation's guard allows it |
| Templates.VersionRequest | cdcs/CDCS/_template.py:562-565 | a version operation sends the PATCH `/rest/template/version/{id}/{action}/` of its target, and only when the target resolves |
| Templates.VersionTargetAt | cdcs/CDCS/_template.py:538-560 | by a title that resolves to a manager, an allowed version number picks that version |
| Templates.VersionByTitle | cdcs/CDCS/_template.py:536-541 | by title, a version operation acts as on the manager the title resolves to |
| Templates.SetCurrentSecond | cdcs/tests/test_4_CDCS_template_v3.py:155 | when `second` resolves to the fixture manager, its version 1 is made current by the PATCH `/rest/template/version/secondhash1/current/` |
| Templates.SetCurrentSecondAgain | cdcs/tests/test_4_CDCS_template_v3.py:157-158 | making version 2 of `second`, its current one, current again is "template version is already current" |
| Templates.SetCurrentFirstOutOfRange | cdcs/tests/test_4_CDCS_template_v3.py:160-161 | `first` has one version, so version 2 is "version number out of range" |
| Templates.FirstIsOnlyMatch | cdcs/CDCS/_template.py:77-87 | on the fixture, the listing by title `first` is its one manager, and the title resolves to it |
| Templates.SetCurrentOnFixture | cdcs/tests/test_4_CDCS_template_v3.py:149-161 | on the template fixture: version 1 of `second` is made current, its version 2 is already current, and `first` has no version 2 |
| Templates.ManagerSlots | cdcs/CDCS/_template.py:170-196 | one manager contributes its current id (current=True), or all its versions in order (current=False), each with its title |
| Templates.FetchRows | cdcs/CDCS/_template.py:175-196 | fetching the slots succeeds iff every id has a document, one row per slot with the manager's title |
| Templates.TemplateListing | cdcs/CDCS/_template.py:138-205 | get_templates as a function: every row carries the title of a listed manager; useronly not a bool is TypeError |
| Templates.SlotTitles | cdcs/CDCS/_template.py:181 | every slot's title is the title of a manager of the listing |
| Templates.SlotsAppend | cdcs/CDCS/_template.py:186-196 | the slots of a concatenation of managers are the concatenated slots |
| Templates.SlotsCurrent | cdcs/CDCS/_template.py:172-181 | with current=True there is one slot per manager, its current id with its title, in order |
| Templates.SlotsAllAt | cdcs/CDCS/_template.py:186-196 | with current=False, version k of manager i sits right after the slots of the managers before i |
| Templates.FetchRowsFailed | cdcs/CDCS/_template.py:176 | once a fetch has failed, later slots do not change the error |
| Templates.GetTemplates | cdcs/CDCS/_template.py:164-205 | the nested fetch loops compute exactly the listing |
| Templates.FetchCurrentTemplates | cdcs/CDCS/_template.py:170-181 | the current=True loop fetches exactly the current slots |
| Templates.FetchAllTemplates | cdcs/CDCS/_template.py:184-198 | the current=False loops fetch exactly all version slots |
| Templates.FetchVersions | cdcs/CDCS/_template.py:186-196 | the inner loop over one manager's versions appends exactly that manager's rows, or stops at its first failing fetch |
| Templates.GetTemplate | cdcs/CDCS/_template.py:238-248 | get_template succeeds iff the listing has exactly one row, that row |
| Templates.ManagersByTitle | cdcs/CDCS/_template.py:46-53 | the listing by a title held by one active global manager is that manager |
| Templates.GetTemplateOfUniqueTitle | cdcs/CDCS/_template.py:207-248 | a title held by one active global manager gives the row of its current template |
| Templates.GetTemplateOfUnknownTitle | cdcs/CDCS/_template.py:245-246 | a title no active global manager holds raises "No matching template found" |
| Templates.ResolveFileArgs | cdcs/CDCS/_template.py:292-314 | file arguments of upload and update. A filename reads the file when no content is given, takes its stem as the default title, and is sent as its last component. A title alone names the file `title.xsd`. Neither is "filename or title must be given"; no content is "filename or content must be given" |
| Templates.UploadTemplate | cdcs/CDCS/_template.py:255-352 | the upload POSTs title, filename and encoded content to the user or global path. The file-argument error comes first. Then AttributeError when no global manager is active, then "template ... already exists" when one has the title, then the encoding error |
| Templates.UploadTemplateOfFile | cdcs/CDCS/_template.py:292-352 | uploading `dir/base.ext` by file name alone, to a curator with an active global manager but none titled `base`, sends title `base`, filename `base.ext` and the file's bytes |
| Templates.UploadTemplateOfText | cdcs/CDCS/_template.py:307-352 | uploading declared text by a title no active global manager holds (one being active) sends `title.xsd`, encoded with the declared encoding |
| Templates.OldVersions | cdcs/CDCS/_template.py:484-494 | the versions disable_old disables are exactly those not yet disabled, the current one only when set_current |
| Templates.DisableRequests | cdcs/CDCS/_template.py:496 | one disable PATCH per version, in order |
| Templates.DisableRequestsAreDisableTemplate | cdcs/CDCS/_template.py:496 | each of those requests is what `disable_template(template_id=v)` sends |
| Templates.OldCurrentVersion | cdcs/CDCS/_template.py:492-493 | the old current version is disabled iff the new one was set current |
| Templates.DisableOld | cdcs/CDCS/_template.py:483-496 | the disable_old loop sends exactly those requests |
| Templates.UpdatePlan | cdcs/CDCS/_template.py:409-473 | the update goes to the given manager, or to the one active global manager with the title (else "template ... does not exist"). It POSTs exactly the resolved file name and the encoded content to `.../{id}/version/`. The file-argument and encoding errors are passed on, each at its step |
| Templates.UpdateOfUnknownTitle | cdcs/CDCS/_template.py:437-442 | an update by a title no active global manager holds is "template ... does not exist" |
| Templates.UpdateRequests | cdcs/CDCS/_template.py:358-496 | the update sends the plan's POST of the file name and encoded content, then the set-current PATCH when asked, then the disable_old PATCHes when asked, in that order; it fails with the plan's error |
| Templates.UpdateTemplate | cdcs/CDCS/_template.py:464-496 | the statements of update_template send exactly those requests |
| Templates.FixtureActiveManagers | cdcs/tests/test_4_CDCS_template_v3.py:30-38 | the fixture's active global managers are `first` and `second` |
| Templates.GetTemplatesOnFixture | cdcs/tests/test_4_CDCS_template_v3.py:53-68 | get_templates on the fixture: ids 1 and 3 for the current templates, ids 1, 2, 3 for all versions, titles `first`, `second`(, `second`) |
| Query.QueryMode | cdcs/CDCS/_query.py:38-53 | keyword and mongoquery exclude each other (ValueError). A keyword goes to `/rest/data/query/keyword/`. Otherwise `/rest/data/query/`, with the mongo text, the dumped dict, or `{}` |
| Query.ResolveItem | cdcs/CDCS/_query.py:64-77 | a Series gives its own id. A title gives the id of its only match among the templates, else "template ... not uniquely found". A title against an empty listing raises AttributeError |
| Query.ItemIds | cdcs/CDCS/_query.py:64-77 | the id list resolves iff every item does, one id per item in order |
| Query.FrameIds | cdcs/CDCS/_query.py:60-62 | a DataFrame gives its id column, row by row |
| Query.TemplateIds | cdcs/CDCS/_query.py:56-77 | a DataFrame gives its ids; anything else goes through `aslist` item by item |
| Query.ItemIdsFailed | cdcs/CDCS/_query.py:72-75 | the first item that fails to resolve is the error |
| Query.TemplateIdList | cdcs/CDCS/_query.py:56-77 | the append loops build exactly that id list |
| Query.FrameIdList | cdcs/CDCS/_query.py:60-62 | the loop over a DataFrame collects its id column |
| Query.ItemIdList | cdcs/CDCS/_query.py:64-77 | the loop over the items collects their ids, or stops at the first that does not resolve |
| Query.BuildData | cdcs/CDCS/_query.py:35-83 | the statements that fill `data` compute exactly the POST data |
| Query.TitleOfUniqueTemplate | cdcs/CDCS/_query.py:71-77 | a title held by one template resolves to its id |
| Query.TitleOfUnknownTemplate | cdcs/CDCS/_query.py:71-75 | a title no template holds is "template ... not uniquely found" |
| Query.QueryData | cdcs/CDCS/_query.py:35-83 | the POST data holds the query (the `all: true` first assigned is overwritten by an empty dict at once). It has `templates` iff a template is given, as the JSON of the id list, and `title` iff given. Nothing else |
| Query.LastPage | cdcs/CDCS/_query.py:92 | the loop stops at the first page without `next` |
| Query.Concat | cdcs/CDCS/_query.py:88-95 | the records collected are exactly those of the pages read |
| Query.Collect | cdcs/CDCS/_query.py:86-97 | the records up to the last page, if their number is that page's count; otherwise AssertionError |
| Query.PageRequest | cdcs/CDCS/_query.py:86-96 | the first POST has no params; the k-th repeat sends `page` k+1 with the same data |
| Query.Posts | cdcs/CDCS/_query.py:86-96 | the POSTs of a search, in order |
| Query.CollectPages | cdcs/CDCS/_query.py:86-97 | the pagination loop collects exactly `Collect` and sends exactly one POST per page read |
| Query.LastPageAt | cdcs/CDCS/_query.py:92 | the first page without `next` is the last page |
| Query.TwoPages | cdcs/CDCS/_query.py:86-97 | two pages, the second last, return both pages' records in two POSTs |
| Query.CountMismatch | cdcs/CDCS/_query.py:97 | a count that disagrees with the records collected is AssertionError |
| Query.TitleOf | cdcs/CDCS/_query.py:101-102 | a record's template title is that of the first template with its id, else IndexError |
| Query.TitleRows | cdcs/CDCS/_query.py:103-104 | every record gets its template's title, in order |
| Query.JoinTitles | cdcs/CDCS/_query.py:98-104 | no records gives no rows; records against an empty template listing raise AttributeError |
| Query.QueryResult | cdcs/CDCS/_query.py:11-106 | the search returns the collected records, in order, each with a title |
| Query.QuerySent | cdcs/CDCS/_query.py:86-96 | the first POST has no params and the later ones carry page numbers 2, 3, ... |
| Query.Query | cdcs/CDCS/_query.py:11-106 | the search method computes exactly that result and sends exactly those POSTs |
| Query.FirstTitleIds | cdcs/CDCS/_query.py:64-77 | on the fixture, the title `first` is the id list [1] |
| Query.QueryByFirstTitle | cdcs/tests/test_5_CDCS_query_v3.py:40-41 | on the fixture, a search by template `first` sends exactly `query: {}` and `templates` as `[{"id": 1}]` |
| JsonIds.Hex4RoundTrip | cdcs/CDCS/_query.py:79 | a `\uXXXX` escape reads back as its code unit |
| JsonIds.ReadEscapedChar | cdcs/CDCS/_query.py:79 | `json.dumps`' escape of any character reads back as that character |
| JsonIds.ReadEscaped | cdcs/CDCS/_query.py:79 | an escaped string with its closing quote reads back as the string |
| JsonIds.ReadSurrogateEscape | cdcs/CDCS/_query.py:79 | a character above U+FFFF, dumped as a surrogate pair of escapes, reads back as that character |
| JsonIds.ReadDecimal | cdcs/CDCS/_query.py:79 | an integer written in decimal reads back as that integer |
| JsonIds.DumpIdRefs | cdcs/CDCS/_query.py:79 | the dumped id list is a bracketed JSON array |
| JsonIds.ReadElementsOf | cdcs/CDCS/_query.py:79 | the dumped elements read back as the ids |
| JsonIds.DumpIdRefsRoundTrip | cdcs/CDCS/_query.py:79 | `json.dumps` of the id list reads back as the id list |
| JsonIds.DumpIdRefsNative | cdcs/CDCS/_query.py:62 | a string id is dumped quoted and an integer id bare: `[{"id": "1"}]` and `[{"id": 1}]` |
| JsonIds.DumpIdRefsInjective | cdcs/CDCS/_query.py:79 | distinct id lists dump to distinct text |
| Records.TemplateOf | cdcs/CDCS/_record.py:28-34 | a Series is used as given, a title through `get_template` |
| Records.RecordsRequest | cdcs/CDCS/_record.py:21-42 | get_records sends GET `/rest/data/` with `templates` iff a template is given, as its one id, and `title` iff given |
| Records.GetRecords | cdcs/CDCS/_record.py:8-45 | the records listed are exactly the stored ones of the template and title asked for |
| Records.SameRecordFilter | cdcs/CDCS/_record.py:21-42 | the server-side filter of that request is the template-and-title mask |
| Records.GetRecord | cdcs/CDCS/_record.py:65-73 | exactly one listed record, or "No matching records found" / "Multiple matching records found" |
| Records.GetRecordOfUnique | cdcs/CDCS/_record.py:47-73 | the one record with the template and title is the one returned |
| Records.RecordContent | cdcs/CDCS/_record.py:100-136 | filename and content exclude each other. A file is sent as bytes, with its stem as the default title. Content needs a title and is encoded. Neither is "filename or content must be given" |
| Records.UploadRecord | cdcs/CDCS/_record.py:75-152 | the POST of title, template id and content. With duplicatecheck True it is sent exactly when the search for the template and title is empty; a failed search is passed on. Otherwise the search is not made. Template and content errors come first |
| Records.DuplicateQuery | cdcs/CDCS/_record.py:140 | the duplicate check is the search by the template and title |
| Records.UploadRecordDuplicate | cdcs/CDCS/_record.py:139-142 | a matching record found refuses the upload with "Record with matching title and template found!" |
| Records.UploadRecordUnchecked | cdcs/CDCS/_record.py:139 | without the check, the search's answers do not matter |
| Records.RecordOf | cdcs/CDCS/_record.py:189-190 | a given record is used as given, else `get_record` |
| Records.UpdateRecord | cdcs/CDCS/_record.py:158-198 | filename and content exclude each other; a missing file is FileNotFoundError. A file's bytes are sent and its stem is the lookup title. The PATCH of `xml_content` to `/rest/data/{id}/` is sent exactly when the record lookup succeeds, and its error is passed on |
| Records.DeleteRecord | cdcs/CDCS/_record.py:204-222 | the DELETE of `/rest/data/{id}/` of the record given or the one found, which is a stored record |
| Records.RecordOfListed | cdcs/CDCS/_record.py:65-69 | the record get_record returns is a stored record |
| Blobs.BlobsRequest | cdcs/CDCS/_blob.py:52-59 | get_blobs sends GET `/rest/blob/` with `filename` iff given |
| Blobs.GetBlobs | cdcs/CDCS/_blob.py:41-61 | the blobs listed are exactly the stored ones with the file name asked for, in order |
| Blobs.SameBlobFilter | cdcs/CDCS/_blob.py:52-59 | the server-side filter of that request is the file-name mask |
| Blobs.GetBlob | cdcs/CDCS/_blob.py:63-93 | id and filename exclude each other; an id is fetched directly; otherwise the exactly-one rule over the listing |
| Blobs.GetBlobOfUniqueName | cdcs/CDCS/_blob.py:79-83 | the one blob with a file name is the one returned |
| Blobs.GetBlobOfUnknownName | cdcs/CDCS/_blob.py:84-85 | a file name no blob has is "No matching blobs found" |
| Blobs.BlobOf | cdcs/CDCS/_blob.py:112-117 | a blob excludes id and filename (in that order of checks); without one, get_blob |
| Blobs.ContentsRequest | cdcs/CDCS/_blob.py:119-120 | get_blob_contents sends GET `/rest/blob/download/{id}` for the blob |
| Blobs.GetBlobContents | cdcs/CDCS/_blob.py:95-121 | the contents are the stored bytes of the resolved blob |
| Blobs.DownloadBlob | cdcs/CDCS/_blob.py:123-152 | download writes the blob's bytes to `savedir/filename` and touches no other file. When the fetch fails the file is left empty and the error is raised |
| Blobs.DownloadRoundTrip | cdcs/CDCS/_blob.py:150-152 | reading the saved file back gives the blob's contents, under its own name |
| Blobs.DeleteBlob | cdcs/CDCS/_blob.py:154-178 | the DELETE of `/rest/blob/{id}` of the resolved blob |
| Blobs.UploadRequest | cdcs/CDCS/_blob.py:19-33 | the POST of `/rest/blob/` has the bytes given or the file's bytes as `blob`, and the given file name as data |
| Blobs.UploadBlobUnbound | cdcs/CDCS/_blob.py:35-39 | the source returns only when verbose and status 201; otherwise `blob` is unbound |
| Blobs.UploadBlob | cdcs/CDCS/_blob.py:8-39 | upload returns the created blob's handle iff the request is made and accepted; a refused request raises its HTTP error |
| Blobs.UploadBlobAgrees | cdcs/CDCS/_blob.py:35-39 | where the source returns, the corrected upload returns the same; verbose does not change the result |
| Workspaces.GetWorkspaces | cdcs/CDCS/_workspace.py:9-30 | all workspaces, or exactly those with the title, in order; a title against an empty listing raises AttributeError |
| Workspaces.GetWorkspace | cdcs/CDCS/_workspace.py:32-61 | exactly one listed workspace, or "No matching workspaces found" / "Multiple matching workspaces found" |
| Workspaces.GetWorkspaceOfUnique | cdcs/CDCS/_workspace.py:53-57 | the one workspace with a title is the one returned |
| Workspaces.GetWorkspaceOfUnknown | cdcs/CDCS/_workspace.py:58-59 | a title no workspace has is "No matching workspaces found" |
| Workspaces.GetWorkspaceWithoutTitle | cdcs/CDCS/_workspace.py:60-61 | without a title, two or more workspaces are "Multiple matching workspaces found" |
| Workspaces.GlobalWorkspace | cdcs/CDCS/_workspace.py:63-66 | `global_workspace` is a stored workspace titled "Global Public Workspace" |
| Xslts.GetXslts | cdcs/CDCS/_xslt.py:13-44 | the name mask, then the file name mask, is the combined mask, in order |
| Xslts.FilterTwice | cdcs/CDCS/_xslt.py:38-41 | masking by name and then by file name is masking by both |
| Xslts.GetXsltsMembers | cdcs/CDCS/_xslt.py:38-41 | an XSLT is listed iff it is stored with the name and file name asked for |
| Xslts.GetXsltsUnfiltered | cdcs/CDCS/_xslt.py:33-36 | without name or file name, every XSLT is listed |
| Xslts.GetXslt | cdcs/CDCS/_xslt.py:46-79 | exactly one listed XSLT, or "No matching xslts found" / "Multiple matching xslts found" |
| Xslts.GetXsltOfUnique | cdcs/CDCS/_xslt.py:72-75 | the one XSLT with the name and file name is the one returned |
| Xslts.UploadXslt | cdcs/CDCS/_xslt.py:81-162 | name, file name and content follow the template rules with `name` for the title. The upload is the POST of name, file name and encoded content to `/rest/xslt/` |
| Xslts.UploadXsltByName | cdcs/CDCS/_xslt.py:119-127 | a name alone names the file `name.xsd`; no file name and no name is "filename or name must be given"; no content is "filename or content must be given" |
| Xslts.IdOf | cdcs/CDCS/_xslt.py:202-206 | xslt and xslt_id exclude each other; an xslt gives its id |
| Xslts.Alias | cdcs/CDCS/_xslt.py:211-219 | with a known id the old argument is an alias of the new one, and giving both is an error |
| Xslts.UpdateTarget | cdcs/CDCS/_xslt.py:202-225 | the entry updated: by id with the aliases applied, or the one XSLT with name and file name |
| Xslts.UpdateXslt | cdcs/CDCS/_xslt.py:164-256 | the PATCH `/rest/xslt/{id}/` of new name, new file name (its last component) and content. The content is the new file's bytes when no content is given and that file exists, the encoded content when given, else None |
| Xslts.UpdateXsltRename | cdcs/CDCS/_xslt.py:210-214 | updating by id with a name renames the entry |
| Xslts.DeleteTarget | cdcs/CDCS/_xslt.py:292-311 | xslt and xslt_id exclude each other and exclude name and file name; otherwise the one XSLT matching them |
| Xslts.DeleteXslt | cdcs/CDCS/_xslt.py:262-314 | the DELETE `/rest/xslt/{id}/` of that entry |
| PidXpaths.ResolveTemplate | cdcs/CDCS/_pid_xpath.py:19-24 | a title is looked up with get_template, a Series used as given, anything else is TypeError |
| PidXpaths.GetPidXpaths | cdcs/CDCS/_pid_xpath.py:5-37 | all xpaths, or exactly those assigned to the template; the template's error otherwise |
| PidXpaths.GetPidXpathsMembers | cdcs/CDCS/_pid_xpath.py:34-35 | an xpath is listed for a template iff it is stored and assigned to it |
| PidXpaths.GetPidXpath | cdcs/CDCS/_pid_xpath.py:57-67 | exactly one listed xpath, or "No matching pid xpaths found" / "Multiple matching pid xpaths found" |
| PidXpaths.GetPidXpathOfUnique | cdcs/CDCS/_pid_xpath.py:62-63 | a template's one xpath is the one returned |
| PidXpaths.GetPidXpathOfUnassigned | cdcs/CDCS/_pid_xpath.py:64-65 | a template without an xpath is "No matching pid xpaths found" |
| PidXpaths.UploadPidXpath | cdcs/CDCS/_pid_xpath.py:69-103 | the upload POSTs exactly template id and xpath. It succeeds iff the template resolves and has no xpath; otherwise "template ... already has a pid xpath assigned to it." |
| PidXpaths.UploadThenUnique | cdcs/CDCS/_pid_xpath.py:91-99 | after an accepted upload the new assignment is the template's only xpath |
| PidXpaths.UpdatePidXpath | cdcs/CDCS/_pid_xpath.py:104-135 | the PATCH of the xpath to `/pid/rest/settings/xpath/{id}/` of the template's one xpath |
| PidXpaths.DeletePidXpath | cdcs/CDCS/_pid_xpath.py:136-161 | the DELETE of the template's one xpath |
| PidXpaths.UploadExcludesUpdate | cdcs/CDCS/_pid_xpath.py:91-94 | no template can both take an upload and an update: one needs no xpath, the other exactly one |
| Pid.Replay | cdcs/CDCS/_pid.py:13-17 | the setting after a sequence of requests: the last setter value, else the initial one |
| Pid.ReplayAppend | cdcs/CDCS/_pid.py:13-17 | replaying two batches is replaying one after the other |
| Pid.ReplaySet | cdcs/CDCS/_pid.py:13-17 | a setter request sets the value it carries |
| Pid.BracketRequests | cdcs/CDCS/_pid.py:39-49 | a non-bool work raises TypeError before any write; False writes nothing; True writes False, then True |
| Pid.BracketRestoresOn | cdcs/CDCS/_pid.py:43-49 | with work True the setting is off inside the block and on after it, whatever it was before; with work False it is untouched |
| Pid.Skip | cdcs/CDCS/_pid.py:6-11 | a GET leaves the setting as it was |
| Pid.PidSettings.constructor | cdcs/CDCS/_pid.py:6-17 | the client's view starts at the curator's setting, with no request sent |
| Pid.PidSettings.AutoSetPid | cdcs/CDCS/_pid.py:6-11 | the getter GETs `/pid/rest/settings` and answers the current value |
| Pid.PidSettings.SetAutoSetPid | cdcs/CDCS/_pid.py:13-17 | the setter PATCHes exactly `{'auto_set_pid': value}` and the setting becomes the value |
| Pid.PidSettings.AutoSetPidOff | cdcs/CDCS/_pid.py:19-49 | the bracket sends exactly the bracket's requests. The block's outcome is its own, even when it raises. With True the setting is off during the block and on after; otherwise it is unchanged |
| Rest.LoginState | cdcs/RestClient.py:55-100 | the host loses its leading and trailing slashes. The user `''` is anonymous: no user, password or certificate. A named user keeps or types the password. A certification that is not a file raises "Certification file not found!", else it is stored resolved |
| Rest.AnonymousLogin | cdcs/RestClient.py:90-94 | an anonymous login stores the host only, whatever else is given |
| Rest.LoginHostStable | cdcs/RestClient.py:69 | logging in again with the stored host stores the same host |
| Rest.Prepare | cdcs/RestClient.py:131-141 | the URL is host, `/`, and rest_url without leading slashes; auth is (user, password) iff a user is stored; verify iff a certificate is stored |
| Rest.PrepareIgnoresLeadingSlashes | cdcs/RestClient.py:132 | leading slashes on rest_url do not change the URL |
| Rest.UrlShape | cdcs/RestClient.py:132 | the URL is the host, one slash, and a path that does not start with a slash |
| Rest.Checked | cdcs/RestClient.py:147-153 | a response with status 400 or more is raised |
| Rest.RestClient.Blank | cdcs/RestClient.py:16-32 | a client before login stores no host, user, password or certificate |
| Rest.RestClient.TestCall | cdcs/RestClient.py:106-111 | the default test call changes no stored state and is counted |
| Rest.RestClient.Login | cdcs/RestClient.py:55-104 | on an error nothing is stored and no test call is made; otherwise the login state is stored, and the test call is made iff a user is |
| Rest.RestClient.Request | cdcs/RestClient.py:113-155 | a request is prepared from the stored state, and a failing status is raised |
| Rest.NewClient | cdcs/RestClient.py:16-32 | constructing a client logs in: a fresh client with the login state and one test call iff a user is, or the login error |
| MockDatabase.ConvertField | cdcs/tests/mock_database/__init__.py:14-15 | an integer becomes its decimal string; a bool or any other value is unchanged |
| MockDatabase.ConvertEntry | cdcs/tests/mock_database/__init__.py:13-15 | an entry keeps its keys, each value converted |
| MockDatabase.ConvertEntries | cdcs/tests/mock_database/__init__.py:18-21 | a list keeps its length, each entry converted |
| MockDatabase.ConvertFieldReadsBack | cdcs/tests/mock_database/__init__.py:15 | a converted integer parses back to the integer |
| MockDatabase.ConvertFieldInjective | cdcs/tests/mock_database/__init__.py:15 | distinct integer ids stay distinct |
| MockDatabase.ConvertIdempotent | cdcs/tests/mock_database/__init__.py:3-22 | no integer survives, and converting twice is converting once |
| MockDatabase.ConvertEntryInPlace | cdcs/tests/mock_database/__init__.py:13-15 | the key loop computes the converted entry |
| MockDatabase.V2Convert | cdcs/tests/mock_database/__init__.py:3-22 | `v2_convert` returns the converted copy of one entry or of a list of entries |

## Left out

- HTTP transport, `raise_for_status` and the response JSON: the curator is a snapshot value and the query's pages are scripted. `Rest.RestClient.Request` takes the status as a parameter.
- The listing filters by `title`, `is_disabled`, `templates` and `filename` run on the server. The model assumes it filters exactly as asked (`Curator.ManagerFilter`, `Curator.RecordFilter`, `Curator.BlobFilter`).
- The `input`/`getpass` prompts are fixed answers in `Rest.Environment`. `Path.is_file` is membership in the file map.
- Rest.Resolve: `Path.resolve` is a join with the working directory; `..` and symbolic links are not normalised.
- The real `testcall` is not modelled. `Rest.RestClient.TestCall` only counts calls. The CDCS override (a GET of `/rest/data/` with an arbitrary title) is the only transport it would use.
- `head`, `get`, `post`, `put`, `patch` and `delete` of `RestClient` only pass their verb to `request`. They are the `Rest.Method` values.
- Printing: the verbose messages, and the response printed on an error.
- Text codecs: encoded text is kept as the text and the encoding name (`Prologue.Payload`). `str.encode` and an unknown encoding name's LookupError are not modelled.
- `json.dumps` of a mongo query dict is taken as the already-dumped text (`Query.Mongo`). Of `json.dumps`, only the template-id list is modelled.
- pandas is modelled as sequences of rows. A DataFrame built from an empty response has no columns, so `get_workspaces` by title, `template_titles` (and with it `upload_template`), the query's title lookup and the title join raise AttributeError on it. The XSLT and PID xpath listings add their columns. `reset_index` and row labels are not modelled, except for the `.loc[0]` KeyError of the template-manager lookup.
- Templates.TemplateListing: its contract states only a bound (every row carries a listed manager's title). The exact rows are stated by `Templates.FetchRows`, `Templates.SlotsCurrent` and `Templates.SlotsAllAt`, and `Templates.GetTemplates` equals it.
- `get_templates` with a non-bool `current`: the TypeError is modelled. A manager listing that is empty gives an empty listing either way.
- Query.QueryResult: its contract ties the records to `Query.Collect`. The titles are stated by `Query.JoinTitles`.
- Records.DuplicateQuery: stated through `Query.QueryResult`, on the same scripted pages.
- Pid.PidSettings.AutoSetPidOff: the block is an outcome parameter. A block that itself changes the setting is not modelled.
- The `auto_set_pid` setter takes a bool. Other Python values are not modelled.
- `update_pid_xpath` and `delete_pid_xpath`: their commented-out type checks are not modelled, since the source does not run them. A template of another type reaches `get_pid_xpath`, which raises the TypeError.
- The version-probing clients and `assign_record_workspace`/`assign_blob_workspace` that `cdcs/CDCS/__init__.py` imports are left out: `cdcs/CDCS/_workspace.py` does not define them.
- `date_parser`, `setup.py`, the VERSION file reading and the TLS-warning suppression are not part of this model.
- The RestClient tests expect `cert`/`verify` attributes and a `checkstatus` argument that `cdcs/RestClient.py` lacks. The model follows the source.

## Findings

| source | as written | input that shows it | evidently intended | confidence | as-written member | corrected member |
|---|---|---|---|---|---|---|
| cdcs/CDCS/_template.py:123-130 | `restore_template_manager(title=t)` looks the title up with `get_template_managers(title)`, which lists only active managers, then refuses any active manager | any title: an active manager with it gives "template manager already active", none gives KeyError 0 | look the title up among disabled managers (`is_disabled=True`) | not executed | Templates.RestoreByTitleAlwaysFails | Templates.RestoreTemplateManager |
| cdcs/CDCS/_blob.py:35-39 | `blob` is bound only inside `if verbose and response.status_code == 201`, but `return blob.handle` runs always | `upload_blob('a.xml', b'x')` with verbose False: UnboundLocalError | bind `blob` from the response whenever the upload succeeds | not executed | Blobs.UploadBlobUnbound | Blobs.UploadBlob |
