/** The project list page: the projects each role sees, narrowed by the
    status select and the search box, and the admin-only status change. */
module ProjectsView {
  import opened Common
  import opened AuthSlice
  import opened ProjectsSlice

  /** The client rule: the lower-cased client name contains "client", "inc"
      or "xyz". It does not look at who the client user is. */
  predicate ClientNameMatches(p: Project)
  {
    var c := Lower(p.client);
    Includes(c, "client") || Includes(c, "inc") || Includes(c, "xyz")
  }

  function ClientVisible(): Project -> bool
  {
    (p: Project) => ClientNameMatches(p)
  }

  /** The team rule, for a project that carries a member list. */
  predicate HasMember(p: Project, userId: int)
  {
    p.team.Some? && userId in p.team.value
  }

  function MemberOf(userId: int): Project -> bool
  {
    (p: Project) => HasMember(p, userId)
  }

  function LacksTeam(): Project -> bool
  {
    (p: Project) => p.team.None?
  }

  const TypeError: string := "TypeError"

  /** The team filter: `project.team.some(...)` runs on every project, so a
      single project without a member list makes the whole list fail. */
  function TeamProjects(ps: seq<Project>, userId: int): (r: Result<seq<Project>, string>)
    ensures r.Err? <==> exists k :: 0 <= k < |ps| && ps[k].team.None?
    ensures r.Err? ==> r.error == TypeError
    ensures r.Ok? ==> IsSubsequence(r.value, ps)
    ensures r.Ok? ==> forall k :: 0 <= k < |r.value| ==> HasMember(r.value[k], userId)
    ensures r.Ok? ==> forall k :: 0 <= k < |ps| && HasMember(ps[k], userId) ==> ps[k] in r.value
  {
    match FindFirst(ps, LacksTeam())
    case Some(_) => Err(TypeError)
    case None =>
      FilterSubsequence(ps, MemberOf(userId));
      Ok(Filter(ps, MemberOf(userId)))
  }

  /** The projects a role starts from: clients by the client-name rule,
      team members by membership, everyone else (including nobody logged
      in) all of them. */
  function RoleProjects(user: Option<User>, ps: seq<Project>): (r: Result<seq<Project>, string>)
    ensures r.Err? <==> HasRole(user, Team) && exists k :: 0 <= k < |ps| && ps[k].team.None?
    ensures r.Ok? ==> IsSubsequence(r.value, ps)
    ensures r.Ok? && !HasRole(user, Client) && !HasRole(user, Team) ==> r.value == ps
  {
    if HasRole(user, Client) then
      FilterSubsequence(ps, ClientVisible());
      Ok(Filter(ps, ClientVisible()))
    else if HasRole(user, Team) then
      TeamProjects(ps, user.value.id)
    else
      SubsequenceReflexive(ps);
      Ok(ps)
  }

  function HasStatus(status: string): Project -> bool
  {
    (p: Project) => p.status == status
  }

  predicate SearchMatches(p: Project, term: string)
  {
    IncludesIgnoringCase(p.name, term) || IncludesIgnoringCase(p.client, term)
  }

  function Matching(term: string): Project -> bool
  {
    (p: Project) => SearchMatches(p, term)
  }

  /** The status select: every project for 'all', else exact matches. */
  function ByStatus(ps: seq<Project>, status: string): (r: seq<Project>)
    ensures IsSubsequence(r, ps)
    ensures status == "all" ==> r == ps
    ensures forall k :: 0 <= k < |r| && status != "all" ==> r[k].status == status
    ensures forall k :: 0 <= k < |ps| && (status == "all" || ps[k].status == status) ==> ps[k] in r
  {
    if status == "all" then
      SubsequenceReflexive(ps);
      ps
    else
      FilterSubsequence(ps, HasStatus(status));
      Filter(ps, HasStatus(status))
  }

  /** The search box: every project for an empty term, else those whose name
      or client contains it, ignoring case. */
  function BySearch(ps: seq<Project>, term: string): (r: seq<Project>)
    ensures IsSubsequence(r, ps)
    ensures term == "" ==> r == ps
    ensures forall k :: 0 <= k < |r| ==> SearchMatches(r[k], term)
    ensures forall k :: 0 <= k < |ps| && SearchMatches(ps[k], term) ==> ps[k] in r
  {
    if term == "" then
      SubsequenceReflexive(ps);
      forall k | 0 <= k < |ps| ensures SearchMatches(ps[k], term) {
        EmptyTermMatches(ps[k].name);
      }
      ps
    else
      FilterSubsequence(ps, Matching(term));
      Filter(ps, Matching(term))
  }

  lemma EmptyTermMatches(s: string)
    ensures IncludesIgnoringCase(s, "")
  {
    assert Lower("") == "";
    IncludesEmpty(Lower(s));
  }

  /** `getFilteredProjects`: the role's projects, then the status select,
      then the search; a team member's list fails when any project lacks a
      member list. */
  function GetFilteredProjects(user: Option<User>, status: string, term: string, ps: seq<Project>): (r: Result<seq<Project>, string>)
    ensures r.Err? <==> HasRole(user, Team) && exists k :: 0 <= k < |ps| && ps[k].team.None?
    ensures r.Ok? ==> IsSubsequence(r.value, ps)
    ensures r.Ok? ==> forall k :: 0 <= k < |r.value| && HasRole(user, Client) ==> ClientNameMatches(r.value[k])
    ensures r.Ok? ==> forall k :: 0 <= k < |r.value| && HasRole(user, Team) ==> HasMember(r.value[k], user.value.id)
    ensures r.Ok? ==> forall k :: 0 <= k < |r.value| && status != "all" ==> r.value[k].status == status
    ensures r.Ok? ==> forall k :: 0 <= k < |r.value| ==> SearchMatches(r.value[k], term)
  {
    match RoleProjects(user, ps)
    case Err(e) => Err(e)
    case Ok(seen) =>
      var byStatus := ByStatus(seen, status);
      var bySearch := BySearch(byStatus, term);
      SubsequenceTransitive(bySearch, byStatus, seen);
      SubsequenceTransitive(bySearch, seen, ps);
      forall k | 0 <= k < |bySearch|
        ensures HasRole(user, Client) ==> ClientNameMatches(bySearch[k])
        ensures HasRole(user, Team) ==> HasMember(bySearch[k], user.value.id)
        ensures status != "all" ==> bySearch[k].status == status
      {
        RoleKept(user, ps, bySearch, k);
        if status != "all" {
          SubsequenceMember(bySearch, byStatus, k);
        }
      }
      Ok(bySearch)
  }

  /** What the role filter promises survives any later narrowing. */
  lemma RoleKept(user: Option<User>, ps: seq<Project>, r: seq<Project>, k: nat)
    requires RoleProjects(user, ps).Ok? && IsSubsequence(r, RoleProjects(user, ps).value) && k < |r|
    ensures HasRole(user, Client) ==> ClientNameMatches(r[k])
    ensures HasRole(user, Team) ==> HasMember(r[k], user.value.id)
  {
    var seen := RoleProjects(user, ps).value;
    SubsequenceMember(r, seen, k);
    var j :| 0 <= j < |seen| && seen[j] == r[k];
    if HasRole(user, Team) {
      assert TeamProjects(ps, user.value.id).Ok?;
      var lacks := FindFirst(ps, LacksTeam());
      assert lacks.None?;
      assert seen == Filter(ps, MemberOf(user.value.id));
    }
  }

  /** Every project passing the role's rule is among the role's projects. */
  lemma RoleProjectsComplete(user: Option<User>, ps: seq<Project>, k: nat)
    requires RoleProjects(user, ps).Ok? && k < |ps|
    requires HasRole(user, Client) ==> ClientNameMatches(ps[k])
    requires HasRole(user, Team) ==> HasMember(ps[k], user.value.id)
    ensures ps[k] in RoleProjects(user, ps).value
  {
    if HasRole(user, Client) {
      FilterKeeps(ps, ClientVisible(), ps[k]);
    } else if HasRole(user, Team) {
      assert TeamProjects(ps, user.value.id).Ok?;
    }
  }

  /** Every project passing all three checks is listed. */
  lemma {:induction false} FilteredProjectsComplete(user: Option<User>, status: string, term: string, ps: seq<Project>, k: nat)
    requires GetFilteredProjects(user, status, term, ps).Ok? && k < |ps|
    requires HasRole(user, Client) ==> ClientNameMatches(ps[k])
    requires HasRole(user, Team) ==> HasMember(ps[k], user.value.id)
    requires status == "all" || ps[k].status == status
    requires SearchMatches(ps[k], term)
    ensures ps[k] in GetFilteredProjects(user, status, term, ps).value
  {
    var seen := RoleProjects(user, ps).value;
    RoleProjectsComplete(user, ps, k);
    var byStatus := ByStatus(seen, status);
    assert GetFilteredProjects(user, status, term, ps).value == BySearch(byStatus, term);
    var i :| 0 <= i < |seen| && seen[i] == ps[k];
    assert ps[k] in byStatus;
    var j :| 0 <= j < |byStatus| && byStatus[j] == ps[k];
    assert ps[k] in BySearch(byStatus, term);
  }

  /** `handleStatusChange`: only an admin's change is dispatched. */
  function StatusChangeDispatch(user: Option<User>, projectId: int, status: string): (r: Option<ProjectAction>)
    ensures r.Some? <==> HasRole(user, Admin)
    ensures r.Some? ==> r.value == UpdateProjectStatus(projectId, status)
  {
    if HasRole(user, Admin) then Some(UpdateProjectStatus(projectId, status)) else None
  }

  /** A status change by anyone but an admin leaves the project list as it was. */
  lemma NonAdminCannotChangeStatus(user: Option<User>, ps: seq<Project>, projectId: int, status: string)
    requires !HasRole(user, Admin)
    ensures AfterDispatch(ps, StatusChangeDispatch(user, projectId, status)) == ps
  {
  }

  /** An admin's change sets the status of the first project with that id. */
  lemma AdminChangesStatus(user: Option<User>, ps: seq<Project>, projectId: int, status: string, i: nat)
    requires HasRole(user, Admin)
    requires ProjectIndex(ps, projectId) == Some(i)
    ensures AfterDispatch(ps, StatusChangeDispatch(user, projectId, status))[i].status == status
  {
  }
}
