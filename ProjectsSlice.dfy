/** The projects slice of the store: the eight-stage template, the project and
    stage records, the progress roll-up recomputed on every approval, and the
    reducers that change the project list in place. */
module ProjectsSlice {
  import opened Common

  /** One entry of the stage template. */
  datatype StageTemplate = StageTemplate(
    id: int,
    name: string,
    assignedRole: string,
    weightage: nat,
    requiresIKFApproval: bool,
    requiresClientApproval: bool)

  /** A project's stage: the template entry's fields copied in, plus its own state. */
  datatype Stage = Stage(
    id: int,
    name: string,
    assignedRole: string,
    weightage: nat,
    requiresIKFApproval: bool,
    requiresClientApproval: bool,
    assignedTo: string,
    dateStarted: Option<string>,
    dateCompleted: Option<string>,
    ikfApproved: bool,
    clientApproved: bool,
    notes: string)

  /** A project. `status` is a free label (any string is stored as given);
      `team` holds the member ids the project list filters on, and is absent
      (`None`) on every project the store itself seeds. */
  datatype Project = Project(
    id: int,
    name: string,
    client: string,
    status: string,
    startDate: string,
    dueDate: string,
    progress: int,
    stages: seq<Stage>,
    team: Option<seq<int>>)

  /** The two mutations the views dispatch against this slice. */
  datatype ProjectAction =
    | UpdateProjectStatus(projectId: int, status: string)
    | UpdateStageApproval(projectId: int, stageId: int, approvalType: string, approved: bool)

  /** The workflow every project follows. */
  const ProjectStages: seq<StageTemplate> := [
    StageTemplate(1, "Handshake Meeting", "Project Manager/BA", 5, true, true),
    StageTemplate(2, "Sitemap Finalization", "BA + Client", 10, true, true),
    StageTemplate(3, "Data Gathering & Wireframes", "BA + Designer", 15, true, true),
    StageTemplate(4, "Content Writing", "Content Writer", 10, true, true),
    StageTemplate(5, "Design Phase", "Designer", 20, true, true),
    StageTemplate(6, "Development Phase", "Developer", 25, true, true),
    StageTemplate(7, "Testing Phase", "QA Team", 10, true, true),
    StageTemplate(8, "Go Live", "Project Manager", 5, true, true)
  ]

  // ---------------------------------------------------------------------
  // Weights and progress
  // ---------------------------------------------------------------------

  /** Sum of the weights of a template list. */
  function TotalWeight(ts: seq<StageTemplate>): nat
  {
    if ts == [] then 0 else ts[0].weightage + TotalWeight(ts[1..])
  }

  /** `ts.find(s => s.id === id)?.weightage || 0`. */
  function WeightOf(ts: seq<StageTemplate>, id: int): (w: nat)
    ensures w <= TotalWeight(ts)
    ensures (forall k :: 0 <= k < |ts| ==> ts[k].id != id) ==> w == 0
    ensures forall k :: 0 <= k < |ts| && ts[k].id == id && (forall m :: 0 <= m < k ==> ts[m].id != id) ==>
      w == ts[k].weightage
  {
    if ts == [] then 0
    else if ts[0].id == id then ts[0].weightage
    else WeightOf(ts[1..], id)
  }

  /** The template weights sum to 100. */
  lemma TemplateTotal()
    ensures TotalWeight(ProjectStages) == 100
  {
  }

  /** The template's ids are 1 to 8, in order. */
  lemma TemplateIds()
    ensures forall k :: 0 <= k < |ProjectStages| ==> ProjectStages[k].id == k + 1
  {
  }

  /** A stage counts as completed when both approvals are given; the
      template's `requires*` flags play no part. */
  predicate IsDone(s: Stage)
  {
    s.ikfApproved && s.clientApproved
  }

  /** Sum of the template weights, looked up by id, of a list of stages. */
  function StageWeightSum(ts: seq<StageTemplate>, stages: seq<Stage>): nat
  {
    if stages == [] then 0 else WeightOf(ts, stages[0].id) + StageWeightSum(ts, stages[1..])
  }

  /** The weight of the completed stages, looked up in the global template. */
  function CompletedWeight(stages: seq<Stage>): nat
  {
    StageWeightSum(ProjectStages, Filter(stages, IsDone))
  }

  /** `Math.round(completedWeight / totalWeight * 100)`, with the total taken
      over the whole template rather than over the project's own stages. */
  function Progress(stages: seq<Stage>): int
  {
    RoundRatio(100 * CompletedWeight(stages), TotalWeight(ProjectStages))
  }

  /** Because the template weights sum to 100, progress is the completed weight itself. */
  lemma ProgressIsCompletedWeight(stages: seq<Stage>)
    ensures Progress(stages) == CompletedWeight(stages)
  {
    TemplateTotal();
    RoundRatioExact(CompletedWeight(stages), 100);
  }

  predicate DistinctIds(stages: seq<Stage>)
  {
    forall i, j :: 0 <= i < j < |stages| ==> stages[i].id != stages[j].id
  }

  predicate DistinctTemplateIds(ts: seq<StageTemplate>)
  {
    forall i, j :: 0 <= i < j < |ts| ==> ts[i].id != ts[j].id
  }

  function Ids(stages: seq<Stage>): set<int>
  {
    set k | 0 <= k < |stages| :: stages[k].id
  }

  /** Sum of the weights of the template entries whose id is in `ids`. */
  function WeightOfIds(ts: seq<StageTemplate>, ids: set<int>): nat
  {
    if ts == [] then 0
    else (if ts[0].id in ids then ts[0].weightage else 0) + WeightOfIds(ts[1..], ids)
  }

  lemma {:induction false} WeightOfIdsAtMostTotal(ts: seq<StageTemplate>, ids: set<int>)
    ensures WeightOfIds(ts, ids) <= TotalWeight(ts)
  {
    if ts != [] {
      WeightOfIdsAtMostTotal(ts[1..], ids);
    }
  }

  /** Adding a new id adds exactly that id's template weight. */
  lemma {:induction false} WeightOfIdsAdd(ts: seq<StageTemplate>, ids: set<int>, i: int)
    requires DistinctTemplateIds(ts)
    requires i !in ids
    ensures WeightOfIds(ts, ids + {i}) == WeightOf(ts, i) + WeightOfIds(ts, ids)
  {
    if ts != [] {
      var rest := ts[1..];
      assert DistinctTemplateIds(rest);
      WeightOfIdsAdd(rest, ids, i);
      if ts[0].id == i {
        assert forall k :: 0 <= k < |rest| ==> rest[k].id != i by {
          forall k | 0 <= k < |rest| ensures rest[k].id != i {
            assert rest[k] == ts[k + 1];
          }
        }
        assert WeightOf(rest, i) == 0;
      }
    }
  }

  /** Over stages with distinct ids, the looked-up weights sum to the weight of their id set. */
  lemma {:induction false} StageWeightSumOfIds(ts: seq<StageTemplate>, stages: seq<Stage>)
    requires DistinctTemplateIds(ts)
    requires DistinctIds(stages)
    ensures StageWeightSum(ts, stages) == WeightOfIds(ts, Ids(stages))
  {
    if stages != [] {
      var rest := stages[1..];
      assert DistinctIds(rest);
      StageWeightSumOfIds(ts, rest);
      assert Ids(stages) == Ids(rest) + {stages[0].id} by {
        forall x ensures x in Ids(stages) <==> x in Ids(rest) + {stages[0].id} {
          if x in Ids(stages) {
            var k :| 0 <= k < |stages| && stages[k].id == x;
            if k > 0 {
              assert rest[k - 1].id == x;
            }
          }
          if x in Ids(rest) {
            var k :| 0 <= k < |rest| && rest[k].id == x;
            assert stages[k + 1].id == x;
          }
        }
      }
      assert stages[0].id !in Ids(rest) by {
        forall k | 0 <= k < |rest| ensures rest[k].id != stages[0].id {
          assert rest[k] == stages[k + 1];
        }
      }
      WeightOfIdsAdd(ts, Ids(rest), stages[0].id);
    } else {
      assert Ids(stages) == {};
      WeightOfNoIds(ts);
    }
  }

  lemma {:induction false} WeightOfNoIds(ts: seq<StageTemplate>)
    ensures WeightOfIds(ts, {}) == 0
  {
    if ts != [] {
      WeightOfNoIds(ts[1..]);
    }
  }

  /** Filtering a list keeps its ids distinct. */
  lemma {:induction false} FilterKeepsDistinct(stages: seq<Stage>, p: Stage -> bool)
    requires DistinctIds(stages)
    ensures DistinctIds(Filter(stages, p))
  {
    if stages != [] {
      var rest := stages[1..];
      assert DistinctIds(rest);
      FilterKeepsDistinct(rest, p);
      if p(stages[0]) {
        var r := Filter(stages, p);
        assert r == [stages[0]] + Filter(rest, p);
        forall i, j | 0 <= i < j < |r| ensures r[i].id != r[j].id {
          if i == 0 {
            assert r[j] in rest;
            var k :| 0 <= k < |rest| && rest[k] == r[j];
            assert stages[k + 1] == r[j];
          }
        }
      }
    }
  }

  /** With distinct stage ids, progress stays within 0..100 whatever the flags are. */
  lemma ProgressBounds(stages: seq<Stage>)
    requires DistinctIds(stages)
    ensures 0 <= Progress(stages) <= 100
  {
    var done := Filter(stages, IsDone);
    FilterKeepsDistinct(stages, IsDone);
    assert DistinctTemplateIds(ProjectStages) by { TemplateIds(); }
    StageWeightSumOfIds(ProjectStages, done);
    WeightOfIdsAtMostTotal(ProjectStages, Ids(done));
    TemplateTotal();
    ProgressIsCompletedWeight(stages);
  }

  // ---------------------------------------------------------------------
  // Lookups
  // ---------------------------------------------------------------------

  function HasProjectId(id: int): Project -> bool
  {
    (p: Project) => p.id == id
  }

  function HasStageId(id: int): Stage -> bool
  {
    (s: Stage) => s.id == id
  }

  /** `projects.find(p => p.id === id)`, as a position. */
  function ProjectIndex(ps: seq<Project>, id: int): (r: Option<nat>)
    ensures r.Some? ==> r.value < |ps| && ps[r.value].id == id
    ensures r.Some? ==> forall k :: 0 <= k < r.value ==> ps[k].id != id
    ensures r.None? <==> forall k :: 0 <= k < |ps| ==> ps[k].id != id
  {
    FindFirst(ps, HasProjectId(id))
  }

  /** `stages.find(s => s.id === id)`, as a position. */
  function StageIndex(stages: seq<Stage>, id: int): (r: Option<nat>)
    ensures r.Some? ==> r.value < |stages| && stages[r.value].id == id
    ensures r.Some? ==> forall k :: 0 <= k < r.value ==> stages[k].id != id
    ensures r.None? <==> forall k :: 0 <= k < |stages| ==> stages[k].id != id
  {
    FindFirst(stages, HasStageId(id))
  }

  // ---------------------------------------------------------------------
  // The approval and status updates, as functions of the project list
  // ---------------------------------------------------------------------

  /** The flag an approval type names: 'ikf' sets the internal approval,
      'client' the client approval, anything else neither. */
  function SetFlag(s: Stage, approvalType: string, approved: bool): (r: Stage)
    ensures r.ikfApproved == (if approvalType == "ikf" then approved else s.ikfApproved)
    ensures r.clientApproved == (if approvalType == "client" then approved else s.clientApproved)
    ensures r.(ikfApproved := s.ikfApproved, clientApproved := s.clientApproved) == s
  {
    if approvalType == "ikf" then s.(ikfApproved := approved)
    else if approvalType == "client" then s.(clientApproved := approved)
    else s
  }

  /** The current value of the flag an approval type names. */
  function FlagOf(s: Stage, approvalType: string): bool
  {
    if approvalType == "client" then s.clientApproved else s.ikfApproved
  }

  /** Setting a flag back to the value it had restores the stage. */
  lemma SetFlagRevert(s: Stage, approvalType: string, approved: bool)
    ensures SetFlag(SetFlag(s, approvalType, approved), approvalType, FlagOf(s, approvalType)) == s
  {
  }

  /** The approval reducer's effect on the project it found. */
  function ApproveInProject(p: Project, stageId: int, approvalType: string, approved: bool): (r: Project)
    ensures r.(stages := p.stages, progress := p.progress) == p
    ensures |r.stages| == |p.stages|
    ensures StageIndex(p.stages, stageId).None? ==> r == p
    ensures StageIndex(p.stages, stageId).Some? ==>
      var j := StageIndex(p.stages, stageId).value;
      && r.stages[j] == SetFlag(p.stages[j], approvalType, approved)
      && (forall k :: 0 <= k < |p.stages| && k != j ==> r.stages[k] == p.stages[k])
      && r.progress == CompletedWeight(r.stages)
  {
    match StageIndex(p.stages, stageId)
    case None => p
    case Some(j) =>
      var stages := p.stages[j := SetFlag(p.stages[j], approvalType, approved)];
      ProgressIsCompletedWeight(stages);
      p.(stages := stages, progress := Progress(stages))
  }

  /** The `updateStageApproval` reducer: find the project, then the stage,
      set the flag and recompute progress; any lookup that fails changes nothing. */
  function ApplyStageApproval(ps: seq<Project>, projectId: int, stageId: int, approvalType: string, approved: bool): (r: seq<Project>)
    ensures |r| == |ps|
    ensures ProjectIndex(ps, projectId).None? ==> r == ps
    ensures forall k :: 0 <= k < |ps| && ProjectIndex(ps, projectId) != Some(k) ==> r[k] == ps[k]
    ensures ProjectIndex(ps, projectId).Some? ==>
      var i := ProjectIndex(ps, projectId).value;
      r[i] == ApproveInProject(ps[i], stageId, approvalType, approved)
  {
    match ProjectIndex(ps, projectId)
    case None => ps
    case Some(i) => ps[i := ApproveInProject(ps[i], stageId, approvalType, approved)]
  }

  /** The `updateProjectStatus` reducer: only the status label of the first
      project with that id changes, to whatever value is given. */
  function ApplyProjectStatus(ps: seq<Project>, projectId: int, status: string): (r: seq<Project>)
    ensures |r| == |ps|
    ensures ProjectIndex(ps, projectId).None? ==> r == ps
    ensures forall k :: 0 <= k < |ps| && ProjectIndex(ps, projectId) != Some(k) ==> r[k] == ps[k]
    ensures ProjectIndex(ps, projectId).Some? ==>
      var i := ProjectIndex(ps, projectId).value;
      r[i].status == status && r[i].(status := ps[i].status) == ps[i]
  {
    match ProjectIndex(ps, projectId)
    case None => ps
    case Some(i) => ps[i := ps[i].(status := status)]
  }

  /** An action applied to the project list. */
  function ApplyAction(ps: seq<Project>, a: ProjectAction): seq<Project>
  {
    match a
    case UpdateProjectStatus(pid, status) => ApplyProjectStatus(ps, pid, status)
    case UpdateStageApproval(pid, sid, t, b) => ApplyStageApproval(ps, pid, sid, t, b)
  }

  /** The project list after a view's handler ran: unchanged when the
      handler dispatched nothing. */
  function AfterDispatch(ps: seq<Project>, d: Option<ProjectAction>): seq<Project>
  {
    match d
    case None => ps
    case Some(a) => ApplyAction(ps, a)
  }

  /** Within one project: approving a found stage, then setting the same flag
      back, restores the stages; progress is recomputed from them. */
  lemma ApproveInProjectRevert(p: Project, stageId: int, approvalType: string, approved: bool)
    requires StageIndex(p.stages, stageId).Some?
    ensures
      var j := StageIndex(p.stages, stageId).value;
      var q := ApproveInProject(p, stageId, approvalType, approved);
      ApproveInProject(q, stageId, approvalType, FlagOf(p.stages[j], approvalType)) == p.(progress := Progress(p.stages))
  {
    var j := StageIndex(p.stages, stageId).value;
    var q := ApproveInProject(p, stageId, approvalType, approved);
    FindFirstStable(p.stages, q.stages, HasStageId(stageId));
    SetFlagRevert(p.stages[j], approvalType, approved);
    assert q.stages[j := SetFlag(q.stages[j], approvalType, FlagOf(p.stages[j], approvalType))] == p.stages;
  }

  /** Approving, then setting the same flag back to its earlier value, restores
      every project and every flag; the target's progress is then the value
      recomputed from its original stages. */
  lemma {:induction false} ApprovalRevert(ps: seq<Project>, projectId: int, stageId: int, approvalType: string, approved: bool)
    requires ProjectIndex(ps, projectId).Some?
    requires StageIndex(ps[ProjectIndex(ps, projectId).value].stages, stageId).Some?
    ensures
      var i := ProjectIndex(ps, projectId).value;
      var j := StageIndex(ps[i].stages, stageId).value;
      var once := ApplyStageApproval(ps, projectId, stageId, approvalType, approved);
      var back := ApplyStageApproval(once, projectId, stageId, approvalType, FlagOf(ps[i].stages[j], approvalType));
      back == ps[i := ps[i].(progress := Progress(ps[i].stages))]
  {
    var i := ProjectIndex(ps, projectId).value;
    var p := ps[i];
    var j := StageIndex(p.stages, stageId).value;
    var q := ApproveInProject(p, stageId, approvalType, approved);
    var once := ApplyStageApproval(ps, projectId, stageId, approvalType, approved);
    assert once == ps[i := q];
    FindFirstStable(ps, once, HasProjectId(projectId));
    ApproveInProjectRevert(p, stageId, approvalType, approved);
    assert once[i := ApproveInProject(q, stageId, approvalType, FlagOf(p.stages[j], approvalType))] == ps[i := p.(progress := Progress(p.stages))];
  }

  /** An approval type other than 'ikf' or 'client' sets no flag, yet a found
      stage still has its project's progress recomputed. */
  lemma UnknownTypeOnlyRecomputes(ps: seq<Project>, projectId: int, stageId: int, approvalType: string, approved: bool)
    requires approvalType != "ikf" && approvalType != "client"
    requires ProjectIndex(ps, projectId).Some?
    requires StageIndex(ps[ProjectIndex(ps, projectId).value].stages, stageId).Some?
    ensures
      var i := ProjectIndex(ps, projectId).value;
      ApplyStageApproval(ps, projectId, stageId, approvalType, approved) == ps[i := ps[i].(progress := Progress(ps[i].stages))]
  {
    var i := ProjectIndex(ps, projectId).value;
    var j := StageIndex(ps[i].stages, stageId).value;
    assert ps[i].stages[j := SetFlag(ps[i].stages[j], approvalType, approved)] == ps[i].stages;
  }

  /** A status update never touches stages or progress, and an approval update never touches status. */
  lemma StatusAndApprovalIndependent(ps: seq<Project>, projectId: int, stageId: int, status: string, approvalType: string, approved: bool)
    ensures forall k :: 0 <= k < |ps| ==>
      ApplyProjectStatus(ps, projectId, status)[k].stages == ps[k].stages &&
      ApplyProjectStatus(ps, projectId, status)[k].progress == ps[k].progress
    ensures forall k :: 0 <= k < |ps| ==>
      ApplyStageApproval(ps, projectId, stageId, approvalType, approved)[k].status == ps[k].status
  {
  }

  /** A project whose stored progress agrees with its stages. */
  predicate ProgressConsistent(p: Project)
  {
    p.progress == Progress(p.stages)
  }

  /** An approval update keeps every consistent project consistent, and makes
      the target consistent as soon as the stage is found. */
  lemma ApprovalEstablishesConsistency(ps: seq<Project>, projectId: int, stageId: int, approvalType: string, approved: bool)
    requires forall k :: 0 <= k < |ps| ==> ProgressConsistent(ps[k])
    ensures forall k :: 0 <= k < |ps| ==> ProgressConsistent(ApplyStageApproval(ps, projectId, stageId, approvalType, approved)[k])
  {
    var r := ApplyStageApproval(ps, projectId, stageId, approvalType, approved);
    forall k | 0 <= k < |ps| ensures ProgressConsistent(r[k]) {
      ProgressIsCompletedWeight(r[k].stages);
    }
  }

  // ---------------------------------------------------------------------
  // The data the fetch returns
  // ---------------------------------------------------------------------

  function SeedStage(t: StageTemplate, assignedTo: string, dateStarted: Option<string>, dateCompleted: Option<string>, approved: bool, notes: string): Stage
  {
    Stage(t.id, t.name, t.assignedRole, t.weightage, t.requiresIKFApproval, t.requiresClientApproval,
          assignedTo, dateStarted, dateCompleted, approved, approved, notes)
  }

  function RedesignStage(t: StageTemplate): Stage
  {
    SeedStage(t,
      if t.id == 1 then "John Smith" else if t.id == 2 then "Sarah Johnson" else "TBD",
      if t.id <= 2 then Some("2024-01-15") else None,
      if t.id == 1 then Some("2024-01-20") else None,
      t.id == 1,
      if t.id == 1 then "Initial meeting completed successfully" else "")
  }

  function MobileStage(t: StageTemplate): Stage
  {
    SeedStage(t,
      if t.id <= 2 then "Mike Wilson" else "TBD",
      if t.id <= 2 then Some("2024-02-01") else None,
      None,
      t.id == 1,
      if t.id == 1 then "Project on hold due to budget constraints" else "")
  }

  /** The two projects the fetch returns. */
  function MockProjects(): seq<Project>
  {
    [ Project(1, "E-commerce Website Redesign", "TechCorp Inc.", "in_progress", "2024-01-15", "2024-06-30", 35,
              seq(|ProjectStages|, k requires 0 <= k < |ProjectStages| => RedesignStage(ProjectStages[k])), None),
      Project(2, "Mobile App Development", "StartupXYZ", "on_hold", "2024-02-01", "2024-08-15", 15,
              seq(|ProjectStages|, k requires 0 <= k < |ProjectStages| => MobileStage(ProjectStages[k])), None) ]
  }

  /** The seeded progress values (35 and 15) are not what the seeded flags give:
      only the first stage is approved on both projects, which is worth 5. */
  lemma SeededProgressIsStale()
    ensures MockProjects()[0].progress == 35 && Progress(MockProjects()[0].stages) == 5
    ensures MockProjects()[1].progress == 15 && Progress(MockProjects()[1].stages) == 5
  {
    TemplateIds();
    SeedHasOnlyFirstDone(MockProjects()[0].stages);
    SeedHasOnlyFirstDone(MockProjects()[1].stages);
  }

  /** A stage list whose only completed stage is the first, with id 1, has progress 5. */
  lemma SeedHasOnlyFirstDone(s: seq<Stage>)
    requires |s| > 0 && IsDone(s[0]) && s[0].id == 1
    requires forall k :: 1 <= k < |s| ==> !IsDone(s[k])
    ensures Progress(s) == 5
  {
    NoneDone(s[1..]);
    assert Filter(s, IsDone) == [s[0]];
    assert StageWeightSum(ProjectStages, [s[0]]) == WeightOf(ProjectStages, 1);
    ProgressIsCompletedWeight(s);
  }

  lemma {:induction false} NoneDone(s: seq<Stage>)
    requires forall k :: 0 <= k < |s| ==> !IsDone(s[k])
    ensures Filter(s, IsDone) == []
  {
    if s != [] {
      NoneDone(s[1..]);
    }
  }

  // ---------------------------------------------------------------------
  // The slice's state
  // ---------------------------------------------------------------------

  class ProjectsStore {
    var projects: seq<Project>
    var isLoading: bool
    var error: Option<string>
    var selectedProject: Option<Project>

    constructor ()
      ensures projects == [] && !isLoading && error == None && selectedProject == None
    {
      projects := [];
      isLoading := false;
      error := None;
      selectedProject := None;
    }

    method FetchProjectsPending()
      modifies this
      ensures isLoading && error == None
      ensures projects == old(projects) && selectedProject == old(selectedProject)
    {
      isLoading := true;
      error := None;
    }

    method FetchProjectsFulfilled(payload: seq<Project>)
      modifies this
      ensures !isLoading && error == None && projects == payload
      ensures selectedProject == old(selectedProject)
    {
      isLoading := false;
      projects := payload;
      error := None;
    }

    method FetchProjectsRejected(message: string)
      modifies this
      ensures !isLoading && error == Some(message)
      ensures projects == old(projects) && selectedProject == old(selectedProject)
    {
      isLoading := false;
      error := Some(message);
    }

    method UpdateProjectStatusFulfilled(projectId: int, status: string)
      modifies this
      ensures projects == ApplyProjectStatus(old(projects), projectId, status)
      ensures isLoading == old(isLoading) && error == old(error) && selectedProject == old(selectedProject)
    {
      var found := ProjectIndex(projects, projectId);
      if found.Some? {
        var i := found.value;
        projects := projects[i := projects[i].(status := status)];
      }
    }

    method UpdateStageApprovalFulfilled(projectId: int, stageId: int, approvalType: string, approved: bool)
      modifies this
      ensures projects == ApplyStageApproval(old(projects), projectId, stageId, approvalType, approved)
      ensures isLoading == old(isLoading) && error == old(error) && selectedProject == old(selectedProject)
    {
      var found := ProjectIndex(projects, projectId);
      if found.Some? {
        var i := found.value;
        var project := projects[i];
        var stageFound := StageIndex(project.stages, stageId);
        if stageFound.Some? {
          var j := stageFound.value;
          var stages := project.stages[j := SetFlag(project.stages[j], approvalType, approved)];
          assert project.(stages := stages, progress := Progress(stages)) == ApproveInProject(project, stageId, approvalType, approved);
          projects := projects[i := project.(stages := stages, progress := Progress(stages))];
        }
      }
    }

    method SetSelectedProject(p: Option<Project>)
      modifies this
      ensures selectedProject == p
      ensures projects == old(projects) && isLoading == old(isLoading) && error == old(error)
    {
      selectedProject := p;
    }

    method ClearError()
      modifies this
      ensures error == None
      ensures projects == old(projects) && isLoading == old(isLoading) && selectedProject == old(selectedProject)
    {
      error := None;
    }
  }
}
