/** The workflow panel: a four-way state per stage and a weighted completion
    percentage, both computed over the panel's own hard-coded stage list (the
    project it is given is not read). */
module ProcessWorkflow {
  import opened Common
  import ProjectsSlice

  /** A stage as the panel lists it. Unlike the store, completion is its own
      flag (`completed`), independent of the two approvals. */
  datatype WorkflowStage = WorkflowStage(
    id: int,
    name: string,
    weightage: nat,
    status: string,
    completed: bool,
    ikfApproved: bool,
    clientApproved: bool)

  datatype StageState = Completed | InProgress | PartiallyCompleted | Pending

  /** The panel's stage list. Its weights differ from the store template's
      (stages 4 to 6 weigh 20, 25, 15 here), though they also sum to 100. */
  const Stages: seq<WorkflowStage> := [
    WorkflowStage(1, "Handshake Meeting", 5, "completed", true, true, true),
    WorkflowStage(2, "Sitemap Finalization", 10, "completed", true, true, true),
    WorkflowStage(3, "Data Gathering & Wireframes", 15, "in_progress", false, true, false),
    WorkflowStage(4, "Content Writing", 20, "pending", false, false, false),
    WorkflowStage(5, "Design Phase", 25, "pending", false, false, false),
    WorkflowStage(6, "Development Phase", 15, "pending", false, false, false),
    WorkflowStage(7, "Testing Phase", 5, "pending", false, false, false),
    WorkflowStage(8, "Go Live", 5, "pending", false, false, false)
  ]

  /** `getStageStatus`: the completed flag wins, then an in-progress status,
      then either approval, else pending. */
  function GetStageStatus(s: WorkflowStage): (r: StageState)
    ensures r == Completed <==> s.completed
    ensures r == InProgress <==> !s.completed && s.status == "in_progress"
    ensures r == PartiallyCompleted <==>
      !s.completed && s.status != "in_progress" && (s.ikfApproved || s.clientApproved)
    ensures r == Pending <==>
      !s.completed && s.status != "in_progress" && !s.ikfApproved && !s.clientApproved
  {
    if s.completed then Completed
    else if s.status == "in_progress" then InProgress
    else if s.ikfApproved || s.clientApproved then PartiallyCompleted
    else Pending
  }

  predicate IsCompleted(s: WorkflowStage) { s.completed }

  predicate IsInProgress(s: WorkflowStage) { s.status == "in_progress" }

  predicate HasAnyApproval(s: WorkflowStage) { s.ikfApproved || s.clientApproved }

  predicate IsNotStarted(s: WorkflowStage) { !s.completed && s.status == "pending" }

  function WeightSum(stages: seq<WorkflowStage>): nat
  {
    if stages == [] then 0 else stages[0].weightage + WeightSum(stages[1..])
  }

  /** The completed stages weigh no more than all stages. */
  lemma {:induction false} CompletedWeightAtMostTotal(stages: seq<WorkflowStage>)
    ensures WeightSum(Filter(stages, IsCompleted)) <= WeightSum(stages)
  {
    if stages != [] {
      CompletedWeightAtMostTotal(stages[1..]);
    }
  }

  /** `getProgressPercentage`: the rounded share of the weight whose stages
      are completed; the approval flags play no part. When the total weight is
      zero the division gives NaN, modelled as `None`. */
  function ProgressPercentage(stages: seq<WorkflowStage>): (r: Option<int>)
    ensures r.None? <==> WeightSum(stages) == 0
    ensures r.Some? ==> 0 <= r.value <= 100
  {
    var total := WeightSum(stages);
    if total == 0 then None
    else
      var done := WeightSum(Filter(stages, IsCompleted));
      CompletedWeightAtMostTotal(stages);
      PercentBounds(done, total);
      Some(RoundRatio(100 * done, total))
  }

  /** Only the completed flags matter: changing approvals or statuses leaves the percentage alone. */
  lemma {:induction false} PercentageIgnoresApprovals(a: seq<WorkflowStage>, b: seq<WorkflowStage>)
    requires |a| == |b|
    requires forall k :: 0 <= k < |a| ==> a[k].weightage == b[k].weightage && a[k].completed == b[k].completed
    ensures ProgressPercentage(a) == ProgressPercentage(b)
  {
    SameWeights(a, b);
  }

  lemma {:induction false} SameWeights(a: seq<WorkflowStage>, b: seq<WorkflowStage>)
    requires |a| == |b|
    requires forall k :: 0 <= k < |a| ==> a[k].weightage == b[k].weightage && a[k].completed == b[k].completed
    ensures WeightSum(a) == WeightSum(b)
    ensures WeightSum(Filter(a, IsCompleted)) == WeightSum(Filter(b, IsCompleted))
  {
    if a != [] {
      SameWeights(a[1..], b[1..]);
    }
  }

  /** The four numbers under the progress bar. */
  datatype Summary = Summary(
    percentage: Option<int>,
    completed: nat,
    inProgress: nat,
    pendingApproval: nat,
    notStarted: nat)

  function Summarize(stages: seq<WorkflowStage>): Summary
  {
    Summary(ProgressPercentage(stages),
            |Filter(stages, IsCompleted)|,
            |Filter(stages, IsInProgress)|,
            |Filter(stages, HasAnyApproval)|,
            |Filter(stages, IsNotStarted)|)
  }

  /** What the panel shows for any project: 15%, with 2 completed, 1 in
      progress, 3 pending approval and 5 not started. */
  function Panel(project: ProjectsSlice.Project): (r: Summary)
    ensures r == Summary(Some(15), 2, 1, 3, 5)
  {
    HardCodedSummary();
    Summarize(Stages)
  }

  lemma HardCodedSummary()
    ensures Summarize(Stages) == Summary(Some(15), 2, 1, 3, 5)
  {
    StagesShape();
    ShapePercentage(Stages);
    ShapeCounts(Stages);
  }

  /** The facts about the hard-coded list that the panel's numbers depend on. */
  predicate PanelShape(s: seq<WorkflowStage>)
  {
    && |s| == 8
    && s[0].completed && s[1].completed && !s[2].completed
    && s[0].status != "in_progress" && s[1].status != "in_progress" && s[2].status == "in_progress"
    && s[0].ikfApproved && s[1].ikfApproved && s[2].ikfApproved
    && (forall k :: 3 <= k < 8 ==> !s[k].completed && s[k].status == "pending")
    && (forall k :: 3 <= k < 8 ==> !s[k].ikfApproved && !s[k].clientApproved)
    && s[0].weightage == 5 && s[1].weightage == 10
    && WeightSum(s[2..]) == 85
  }

  lemma StagesShape()
    ensures PanelShape(Stages)
  {
    assert Stages[2..] == [Stages[2]] + Stages[3..];
  }

  /** Stages 1 and 2, weighing 5 and 10 out of 100, are the completed ones: 15%. */
  lemma ShapePercentage(s: seq<WorkflowStage>)
    requires PanelShape(s)
    ensures ProgressPercentage(s) == Some(15)
  {
    HeadSplit(s, IsCompleted);
    FilterKeepsNone(s[3..], IsCompleted);
    assert Filter(s, IsCompleted) == [s[0], s[1]];
    assert WeightSum([s[0], s[1]]) == 15 by {
      assert [s[0], s[1]][1..] == [s[1]];
      assert [s[1]][1..] == [];
      assert WeightSum([s[1]]) == 10;
    }
    assert s[1..][1..] == s[2..];
    assert WeightSum(s) == 100;
    RoundRatioExact(15, 100);
  }

  lemma ShapeCounts(s: seq<WorkflowStage>)
    requires PanelShape(s)
    ensures |Filter(s, IsCompleted)| == 2
    ensures |Filter(s, IsInProgress)| == 1
    ensures |Filter(s, HasAnyApproval)| == 3
    ensures |Filter(s, IsNotStarted)| == 5
  {
    ShapeCompletedCount(s);
    ShapeInProgressCount(s);
    ShapeApprovalCount(s);
    ShapeNotStartedCount(s);
  }

  lemma ShapeCompletedCount(s: seq<WorkflowStage>)
    requires PanelShape(s)
    ensures |Filter(s, IsCompleted)| == 2
  {
    HeadSplit(s, IsCompleted);
    FilterKeepsNone(s[3..], IsCompleted);
  }

  lemma ShapeInProgressCount(s: seq<WorkflowStage>)
    requires PanelShape(s)
    ensures |Filter(s, IsInProgress)| == 1
  {
    HeadSplit(s, IsInProgress);
    FilterKeepsNone(s[3..], IsInProgress);
  }

  lemma ShapeApprovalCount(s: seq<WorkflowStage>)
    requires PanelShape(s)
    ensures |Filter(s, HasAnyApproval)| == 3
  {
    HeadSplit(s, HasAnyApproval);
    FilterKeepsNone(s[3..], HasAnyApproval);
  }

  lemma ShapeNotStartedCount(s: seq<WorkflowStage>)
    requires PanelShape(s)
    ensures |Filter(s, IsNotStarted)| == 5
  {
    HeadSplit(s, IsNotStarted);
    FilterKeepsAll(s[3..], IsNotStarted);
  }

  /** The filter of a list of at least three stages, its first three taken one by one. */
  lemma HeadSplit(s: seq<WorkflowStage>, p: WorkflowStage -> bool)
    requires |s| >= 3
    ensures Filter(s, p) ==
      (if p(s[0]) then [s[0]] else []) + ((if p(s[1]) then [s[1]] else []) +
      ((if p(s[2]) then [s[2]] else []) + Filter(s[3..], p)))
  {
    FilterCons(s, p);
    FilterCons(s[1..], p);
    FilterCons(s[2..], p);
    assert s[1..][1..] == s[2..];
    assert s[2..][1..] == s[3..];
  }

  /** The "Pending Approval" count takes every stage with either approval, so
      it also counts every completed stage that carries one: whenever the
      completed stages are approved, it is at least the "Completed" count. */
  lemma PendingApprovalCoversCompleted(stages: seq<WorkflowStage>)
    requires forall k :: 0 <= k < |stages| && stages[k].completed ==> HasAnyApproval(stages[k])
    ensures |Filter(stages, HasAnyApproval)| >= |Filter(stages, IsCompleted)|
  {
    CountMonotone(stages);
  }

  lemma {:induction false} CountMonotone(stages: seq<WorkflowStage>)
    requires forall k :: 0 <= k < |stages| && stages[k].completed ==> HasAnyApproval(stages[k])
    ensures |Filter(stages, IsCompleted)| <= |Filter(stages, HasAnyApproval)|
  {
    if stages != [] {
      CountMonotone(stages[1..]);
    }
  }
}
