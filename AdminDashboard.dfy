/** The admin dashboard: the status select over all projects, the pending
    approval and completed stage counts, the average progress card and a
    status change that is dispatched without any role check. */
module AdminDashboard {
  import opened Common
  import opened AuthSlice
  import opened ProjectsSlice
  import opened ProjectRollups
  import ProjectsView

  /** `filteredProjects`: all projects for 'all', else exact status matches. */
  function FilteredProjects(ps: seq<Project>, status: string): (r: seq<Project>)
    ensures IsSubsequence(r, ps)
    ensures status == "all" ==> r == ps
    ensures forall k :: 0 <= k < |r| && status != "all" ==> r[k].status == status
    ensures forall k :: 0 <= k < |ps| && ps[k].status == status ==> ps[k] in r
  {
    ProjectsView.ByStatus(ps, status)
  }

  /** The status select here and on the project page give the same list to an admin. */
  lemma SameAsProjectPage(user: Option<User>, ps: seq<Project>, status: string)
    requires HasRole(user, Admin)
    ensures ProjectsView.GetFilteredProjects(user, status, "", ps) == Ok(FilteredProjects(ps, status))
  {
  }

  predicate AwaitsApproval(s: Stage)
  {
    !s.ikfApproved || !s.clientApproved
  }

  predicate FullyApproved(s: Stage)
  {
    s.ikfApproved && s.clientApproved
  }

  function Awaiting(): Stage -> bool
  {
    (s: Stage) => AwaitsApproval(s)
  }

  function Approved(): Stage -> bool
  {
    (s: Stage) => FullyApproved(s)
  }

  /** `pendingApprovals`: stages over all projects missing either approval. */
  function PendingApprovals(ps: seq<Project>): (n: nat)
    ensures n <= TotalStages(ps)
    ensures n == TotalStages(ps) - StageCount(ps, Approved())
  {
    StageCountPartition(ps, Approved(), Awaiting());
    StageCount(ps, Awaiting())
  }

  /** The "Completed Stages" card: stages with both approvals. */
  function CompletedStages(ps: seq<Project>): (n: nat)
    ensures n <= TotalStages(ps)
  {
    StageCountPartition(ps, Approved(), Awaiting());
    StageCount(ps, Approved())
  }

  /** Every stage is counted by exactly one of the two cards. */
  lemma CountsPartitionStages(ps: seq<Project>)
    ensures PendingApprovals(ps) + CompletedStages(ps) == TotalStages(ps)
  {
    StageCountPartition(ps, Approved(), Awaiting());
  }

  function LacksClient(): Stage -> bool
  {
    (s: Stage) => !s.clientApproved
  }

  /** Every stage still waiting for the client is among the pending ones. */
  lemma ClientWaitsAreCounted(ps: seq<Project>)
    ensures StageCount(ps, LacksClient()) <= PendingApprovals(ps)
  {
    StageCountWeaker(ps, LacksClient(), Awaiting());
  }

  /** The "Average Progress" card, over every project. */
  function AdminAverageProgress(ps: seq<Project>): (r: int)
    ensures ps == [] ==> r == 0
    ensures ProgressInRange(ps) ==> 0 <= r <= 100
  {
    AverageProgress(ps)
  }

  /** `handleStatusChange` on this page: it dispatches without a role check of its own.
      The dashboard shows this page to admins and to users whose role is none of admin,
      team or client; that routing is outside this model. */
  function HandleStatusChange(projectId: int, status: string): (d: Option<ProjectAction>)
    ensures d == Some(UpdateProjectStatus(projectId, status))
  {
    Some(UpdateProjectStatus(projectId, status))
  }

  /** Taken on their own, this page's handler applies the status whatever the user,
      where the project page's handler drops the change of a non-admin. */
  lemma UngatedUnlikeProjectPage(user: Option<User>, ps: seq<Project>, projectId: int, status: string, i: nat)
    requires !HasRole(user, Admin)
    requires ProjectIndex(ps, projectId) == Some(i)
    ensures AfterDispatch(ps, HandleStatusChange(projectId, status))[i].status == status
    ensures AfterDispatch(ps, ProjectsView.StatusChangeDispatch(user, projectId, status)) == ps
  {
  }
}
