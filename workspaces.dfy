/** Workspaces: the listing narrowed by title on the client side, the
    exactly-one accessor and the global public workspace. */
module Workspaces {
  import opened Wrappers
  import opened Identity
  import opened Curator

  const WorkspacesPath := "/rest/workspace/"
  const GlobalTitle := "Global Public Workspace"

  function TitleMask(title: string): Workspace -> bool {
    (w: Workspace) => w.title == title
  }

  /** get_workspaces: every workspace in server order, or those with the
      title.  An empty response is a DataFrame without a `title` column. */
  function GetWorkspaces(server: Server, title: Option<string>): (r: Result<seq<Workspace>>)
    ensures title.None? ==> r == Ok(server.workspaces)
    ensures title.Some? && server.workspaces == [] ==> r == Err(AttributeError("title"))
    ensures title.Some? && server.workspaces != [] ==> r == Ok(Filter(server.workspaces, TitleMask(title.value)))
    ensures r.Ok? ==> forall w :: w in r.value <==> w in server.workspaces && (title.Some? ==> w.title == title.value)
  {
    if title.None? then Ok(server.workspaces)
    else if server.workspaces == [] then Err(AttributeError("title"))
    else Ok(Filter(server.workspaces, TitleMask(title.value)))
  }

  const WorkspaceNoun := Noun("workspaces", "workspaces")

  /** get_workspace: the one workspace get_workspaces lists. */
  function GetWorkspace(server: Server, title: Option<string>): (r: Result<Workspace>)
    ensures r.Ok? <==> GetWorkspaces(server, title).Ok? && |GetWorkspaces(server, title).value| == 1
    ensures r.Ok? ==> GetWorkspaces(server, title).value == [r.value]
    ensures GetWorkspaces(server, title).Ok? && |GetWorkspaces(server, title).value| == 0 ==> r == Err(NoMatch(WorkspaceNoun))
    ensures GetWorkspaces(server, title).Ok? && |GetWorkspaces(server, title).value| > 1 ==> r == Err(ManyMatch(WorkspaceNoun))
  {
    var workspaces :- GetWorkspaces(server, title);
    SelectOne(workspaces, WorkspaceNoun)
  }

  /** A workspace that alone has the title is the one returned. */
  lemma {:induction false} GetWorkspaceOfUnique(server: Server, title: string, i: nat)
    requires UniqueMatch(server.workspaces, TitleMask(title), i)
    ensures GetWorkspace(server, Some(title)) == Ok(server.workspaces[i])
  {
    FilterOfUnique(server.workspaces, TitleMask(title), i);
  }

  /** A title no workspace has is "No matching workspaces found". */
  lemma GetWorkspaceOfUnknown(server: Server, title: string)
    requires server.workspaces != []
    requires forall w :: w in server.workspaces ==> w.title != title
    ensures GetWorkspace(server, Some(title)) == Err(NoMatch(WorkspaceNoun))
  {
    FilterNone(server.workspaces, TitleMask(title));
  }

  /** Without a title, two or more workspaces are "Multiple matching". */
  lemma GetWorkspaceWithoutTitle(server: Server)
    requires |server.workspaces| >= 2
    ensures GetWorkspace(server, None) == Err(ManyMatch(WorkspaceNoun))
  {
  }

  /** The `global_workspace` property. */
  function GlobalWorkspace(server: Server): (r: Result<Workspace>)
    ensures r == GetWorkspace(server, Some(GlobalTitle))
    ensures r.Ok? ==> r.value in server.workspaces && r.value.title == GlobalTitle
  {
    var r := GetWorkspace(server, Some(GlobalTitle));
    assert r.Ok? ==> r.value in GetWorkspaces(server, Some(GlobalTitle)).value;
    r
  }
}
