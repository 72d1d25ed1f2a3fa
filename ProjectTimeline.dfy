/** The timeline view's per-stage ladder: each stage of the project it is
    shown is given a progress of 100, 75, 50 or 25 and a matching status.
    The view reads its own field names, `internalApproved` and
    `completedDate`, which the store's stages do not carry. */
module ProjectTimeline {
  import opened Common
  import ProjectsSlice

  /** A stage as the timeline reads it. An absent `internalApproved` reads
      as false; `completedDate` counts only when present and non-empty (a
      JavaScript truthy string). */
  datatype TimelineStage = TimelineStage(
    id: int,
    name: string,
    internalApproved: bool,
    clientApproved: bool,
    completedDate: Option<string>)

  datatype TimelineStatus = StageCompleted | PendingClient | PendingInternal | NotStarted

  /** One row of the timeline: the stage, its position, progress and status. */
  datatype TimelineEntry = TimelineEntry(
    stage: TimelineStage,
    index: nat,
    progress: int,
    status: TimelineStatus)

  predicate Dated(s: TimelineStage)
  {
    s.completedDate.Some? && s.completedDate.value != ""
  }

  /** The stage's progress: both approvals 100, internal only 75, a
      completion date 50, otherwise 25. */
  function StageProgress(s: TimelineStage): (r: int)
    ensures r == 100 <==> s.internalApproved && s.clientApproved
    ensures r == 75 <==> s.internalApproved && !s.clientApproved
    ensures r == 50 <==> !s.internalApproved && Dated(s)
    ensures r == 25 <==> !s.internalApproved && !Dated(s)
    ensures !s.internalApproved ==> r <= 50
  {
    if s.internalApproved && s.clientApproved then 100
    else if s.internalApproved then 75
    else if Dated(s) then 50
    else 25
  }

  /** The stage's status, by the same precedence as its progress. */
  function StageStatus(s: TimelineStage): (r: TimelineStatus)
    ensures r == StageCompleted <==> s.internalApproved && s.clientApproved
    ensures r == PendingClient <==> s.internalApproved && !s.clientApproved
    ensures r == PendingInternal <==> !s.internalApproved && Dated(s)
    ensures r == NotStarted <==> !s.internalApproved && !Dated(s)
  {
    if s.internalApproved && s.clientApproved then StageCompleted
    else if s.internalApproved then PendingClient
    else if Dated(s) then PendingInternal
    else NotStarted
  }

  /** The progress figure each status stands for. */
  function StatusProgress(t: TimelineStatus): int
  {
    match t
    case StageCompleted => 100
    case PendingClient => 75
    case PendingInternal => 50
    case NotStarted => 25
  }

  /** Status and progress determine each other: a stage has a status exactly
      when its progress is that status's figure. */
  lemma StatusMatchesProgress(s: TimelineStage, t: TimelineStatus)
    ensures StageStatus(s) == t <==> StageProgress(s) == StatusProgress(t)
  {
    match t
    case StageCompleted =>
    case PendingClient =>
    case PendingInternal =>
    case NotStarted =>
  }

  /** `stageTimeline`, from position `start` on: one entry per stage, in
      order, each carrying its own position. */
  function TimelineFrom(stages: seq<TimelineStage>, start: nat): (r: seq<TimelineEntry>)
    ensures |r| == |stages|
    ensures forall k :: 0 <= k < |r| ==>
      r[k].stage == stages[k] && r[k].index == start + k
      && r[k].progress == StageProgress(stages[k]) && r[k].status == StageStatus(stages[k])
  {
    if stages == [] then []
    else
      [TimelineEntry(stages[0], start, StageProgress(stages[0]), StageStatus(stages[0]))]
      + TimelineFrom(stages[1..], start + 1)
  }

  function StageTimeline(stages: seq<TimelineStage>): (r: seq<TimelineEntry>)
    ensures |r| == |stages|
    ensures forall k :: 0 <= k < |r| ==>
      r[k].stage == stages[k] && r[k].index == k
      && r[k].progress == StageProgress(stages[k]) && r[k].status == StageStatus(stages[k])
  {
    TimelineFrom(stages, 0)
  }

  /** Every entry's progress is the figure of its status. */
  lemma {:induction false} TimelineConsistent(stages: seq<TimelineStage>)
    ensures forall k :: 0 <= k < |stages| ==>
      StageTimeline(stages)[k].progress == StatusProgress(StageTimeline(stages)[k].status)
  {
    var r := StageTimeline(stages);
    forall k | 0 <= k < |stages|
      ensures r[k].progress == StatusProgress(r[k].status)
    {
      StatusMatchesProgress(stages[k], r[k].status);
    }
  }

  /** How the timeline reads a store stage: it has no `internalApproved` and
      no `completedDate`, so both read as absent. */
  function FromStoreStage(s: ProjectsSlice.Stage): (r: TimelineStage)
    ensures r.id == s.id && r.name == s.name && r.clientApproved == s.clientApproved
    ensures !r.internalApproved && r.completedDate.None?
  {
    TimelineStage(s.id, s.name, false, s.clientApproved, None)
  }

  /** Shown a project from the store, every stage of the timeline reads 25%
      and not started, whatever its approvals. */
  lemma {:induction false} StoreStagesNeverAdvance(stages: seq<ProjectsSlice.Stage>)
    ensures forall k :: 0 <= k < |stages| ==>
      StageTimeline(AsTimelineStages(stages))[k].progress == 25
      && StageTimeline(AsTimelineStages(stages))[k].status == NotStarted
  {
    var r := StageTimeline(AsTimelineStages(stages));
    forall k | 0 <= k < |stages|
      ensures r[k].progress == 25 && r[k].status == NotStarted
    {
      assert r[k].stage == FromStoreStage(stages[k]);
    }
  }

  /** The store's stages as the timeline reads them. */
  function AsTimelineStages(stages: seq<ProjectsSlice.Stage>): (r: seq<TimelineStage>)
    ensures |r| == |stages|
    ensures forall k :: 0 <= k < |r| ==> r[k] == FromStoreStage(stages[k])
  {
    seq(|stages|, k requires 0 <= k < |stages| => FromStoreStage(stages[k]))
  }
}
