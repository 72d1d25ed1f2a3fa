/** The client's dashboard: the projects it lists, the stages awaiting the
    client's approval, the approve/reject buttons, the per-stage dot and the
    average progress card. */
module ClientDashboard {
  import opened Common
  import opened AuthSlice
  import opened ProjectsSlice
  import opened ProjectRollups
  import ProjectsView

  /** `clientProjects`: the project list's client-name rule, not the user. */
  function ClientProjects(ps: seq<Project>): (r: seq<Project>)
    ensures IsSubsequence(r, ps)
    ensures forall k :: 0 <= k < |r| ==> ProjectsView.ClientNameMatches(r[k])
    ensures forall k :: 0 <= k < |ps| && ProjectsView.ClientNameMatches(ps[k]) ==> ps[k] in r
  {
    FilterSubsequence(ps, ProjectsView.ClientVisible());
    Filter(ps, ProjectsView.ClientVisible())
  }

  /** The dashboard lists exactly what the project page lists for a client
      before any status or search narrowing. */
  lemma SameAsProjectPage(user: Option<User>, ps: seq<Project>)
    requires HasRole(user, Client)
    ensures ProjectsView.GetFilteredProjects(user, "all", "", ps) == Ok(ClientProjects(ps))
  {
  }

  predicate AwaitsClient(s: Stage)
  {
    !s.clientApproved
  }

  function AwaitingClient(): Stage -> bool
  {
    (s: Stage) => AwaitsClient(s)
  }

  /** `getPendingApprovals`: the stages without client approval, over the
      client projects in order, each tagged with its project. */
  function PendingApprovals(ps: seq<Project>): (r: seq<StageOfProject>)
    ensures |r| == StageCount(ClientProjects(ps), AwaitingClient())
  {
    StagesWhere(ClientProjects(ps), AwaitingClient())
  }

  /** Each pending approval is an unapproved stage of a client project. */
  lemma PendingApprovalsSound(ps: seq<Project>)
    ensures forall k :: 0 <= k < |PendingApprovals(ps)| ==>
      !PendingApprovals(ps)[k].stage.clientApproved
      && exists i :: 0 <= i < |ps| && ProjectsView.ClientNameMatches(ps[i]) && FromProject(PendingApprovals(ps)[k], ps[i])
  {
    var cps := ClientProjects(ps);
    StagesWhereSound(cps, AwaitingClient());
    var r := PendingApprovals(ps);
    forall k | 0 <= k < |r|
      ensures exists i :: 0 <= i < |ps| && ProjectsView.ClientNameMatches(ps[i]) && FromProject(r[k], ps[i])
    {
      var i :| 0 <= i < |cps| && FromProject(r[k], cps[i]);
      assert cps[i] in ps;
    }
  }

  /** Every unapproved stage of every client project is pending. */
  lemma PendingApprovalsComplete(ps: seq<Project>, i: nat, j: nat)
    requires i < |ps| && j < |ps[i].stages|
    requires ProjectsView.ClientNameMatches(ps[i]) && !ps[i].stages[j].clientApproved
    ensures StageOfProject(ps[i].stages[j], ps[i].name, ps[i].id) in PendingApprovals(ps)
  {
    var cps := ClientProjects(ps);
    assert ps[i] in cps;
    var m :| 0 <= m < |cps| && cps[m] == ps[i];
    StagesWhereComplete(cps, AwaitingClient(), m, j);
  }

  /** `handleClientApproval`: always the client flag. */
  function HandleClientApproval(projectId: int, stageId: int, approved: bool): (a: ProjectAction)
    ensures a.UpdateStageApproval? && a.approvalType == "client"
    ensures a.projectId == projectId && a.stageId == stageId && a.approved == approved
  {
    UpdateStageApproval(projectId, stageId, "client", approved)
  }

  /** The Approve button of a pending entry. */
  function Approve(t: StageOfProject): (a: ProjectAction)
    ensures a.UpdateStageApproval? && a.approvalType == "client" && a.approved
    ensures a.projectId == t.projectId && a.stageId == t.stage.id
  {
    HandleClientApproval(t.projectId, t.stage.id, true)
  }

  /** The Reject button of a pending entry. */
  function Reject(t: StageOfProject): (a: ProjectAction)
    ensures a.UpdateStageApproval? && a.approvalType == "client" && !a.approved
    ensures a.projectId == t.projectId && a.stageId == t.stage.id
  {
    HandleClientApproval(t.projectId, t.stage.id, false)
  }

  /** Within one project, a client approval keeps every stage's internal flag. */
  lemma ClientApprovalKeepsProjectFlags(p: Project, stageId: int, approved: bool)
    ensures |ApproveInProject(p, stageId, "client", approved).stages| == |p.stages|
    ensures forall j :: 0 <= j < |p.stages| ==>
      ApproveInProject(p, stageId, "client", approved).stages[j].ikfApproved == p.stages[j].ikfApproved
  {
    var q := ApproveInProject(p, stageId, "client", approved);
    forall j | 0 <= j < |p.stages|
      ensures q.stages[j].ikfApproved == p.stages[j].ikfApproved
    {
      if StageIndex(p.stages, stageId) == Some(j) {
        assert q.stages[j] == SetFlag(p.stages[j], "client", approved);
      }
    }
  }

  /** A client approval or rejection never touches an internal approval, and
      never adds or removes a stage. */
  lemma ClientApprovalKeepsInternalFlags(ps: seq<Project>, projectId: int, stageId: int, approved: bool)
    ensures var after := ApplyAction(ps, HandleClientApproval(projectId, stageId, approved));
      |after| == |ps|
      && forall k :: 0 <= k < |ps| ==>
        |after[k].stages| == |ps[k].stages|
        && forall j :: 0 <= j < |ps[k].stages| ==> after[k].stages[j].ikfApproved == ps[k].stages[j].ikfApproved
  {
    var after := ApplyStageApproval(ps, projectId, stageId, "client", approved);
    assert ApplyAction(ps, HandleClientApproval(projectId, stageId, approved)) == after;
    forall k | 0 <= k < |ps|
      ensures |after[k].stages| == |ps[k].stages|
      ensures forall j :: 0 <= j < |ps[k].stages| ==> after[k].stages[j].ikfApproved == ps[k].stages[j].ikfApproved
    {
      if ProjectIndex(ps, projectId) == Some(k) {
        ClientApprovalKeepsProjectFlags(ps[k], stageId, approved);
      }
    }
  }

  /** Approving (or rejecting) a stage that exists sets its client flag to
      the button's value. */
  lemma ClientApprovalSetsFlag(ps: seq<Project>, projectId: int, stageId: int, approved: bool, i: nat, j: nat)
    requires ProjectIndex(ps, projectId) == Some(i)
    requires StageIndex(ps[i].stages, stageId) == Some(j)
    ensures ApplyAction(ps, HandleClientApproval(projectId, stageId, approved))[i].stages[j].clientApproved == approved
  {
  }

  datatype Dot = Success | Warning | Gray

  /** The dot beside each stage of the timeline card. */
  function StageDot(s: Stage): (d: Dot)
    ensures d == Success <==> s.ikfApproved && s.clientApproved
    ensures d == Warning <==> s.ikfApproved != s.clientApproved
    ensures d == Gray <==> !s.ikfApproved && !s.clientApproved
  {
    if s.ikfApproved && s.clientApproved then Success
    else if s.ikfApproved || s.clientApproved then Warning
    else Gray
  }

  /** The "Average Progress" card, over the client projects only. */
  function ClientAverageProgress(ps: seq<Project>): (r: int)
    ensures ClientProjects(ps) == [] ==> r == 0
    ensures ProgressInRange(ps) ==> 0 <= r <= 100
  {
    var cps := ClientProjects(ps);
    if ProgressInRange(ps) then
      assert ProgressInRange(cps) by {
        forall k | 0 <= k < |cps| ensures 0 <= cps[k].progress <= 100 {
          var i :| 0 <= i < |ps| && ps[i] == cps[k];
        }
      }
      AverageProgress(cps)
    else
      AverageProgress(cps)
  }
}
