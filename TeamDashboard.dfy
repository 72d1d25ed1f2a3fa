/** The team member's dashboard: the projects with a stage assigned to them,
    their open tasks, and their logged hours. */
module TeamDashboard {
  import opened Common
  import opened AuthSlice
  import opened ProjectsSlice
  import opened ProjectRollups
  import opened TimesheetsSlice
  import TimesheetsView

  /** A stage is the user's when it names them, or when its role label
      contains their role's name (case-sensitive: "QA Team" does not contain
      "team"). */
  predicate StageMatches(user: User, s: Stage)
  {
    s.assignedTo == user.name || Includes(s.assignedRole, RoleName(user.role))
  }

  function MatchesUser(user: User): Stage -> bool
  {
    (s: Stage) => StageMatches(user, s)
  }

  /** `project.stages.some(...)`. */
  predicate IsAssigned(user: User, p: Project)
  {
    FindFirst(p.stages, MatchesUser(user)).Some?
  }

  function AssignedTo(user: User): Project -> bool
  {
    (p: Project) => IsAssigned(user, p)
  }

  /** `assignedProjects`: the projects with at least one of the user's stages, in order. */
  function AssignedProjects(user: User, ps: seq<Project>): (r: seq<Project>)
    ensures IsSubsequence(r, ps)
    ensures forall k :: 0 <= k < |r| ==> HasStageOf(user, r[k])
    ensures forall k, j :: 0 <= k < |ps| && 0 <= j < |ps[k].stages| && StageMatches(user, ps[k].stages[j]) ==> ps[k] in r
  {
    FilterSubsequence(ps, AssignedTo(user));
    AssignedHaveMatchingStage(user, Filter(ps, AssignedTo(user)));
    Filter(ps, AssignedTo(user))
  }

  /** Some stage of the project is the user's. */
  predicate HasStageOf(user: User, p: Project)
  {
    exists j :: 0 <= j < |p.stages| && StageMatches(user, p.stages[j])
  }

  lemma AssignedHaveMatchingStage(user: User, ps: seq<Project>)
    requires forall k :: 0 <= k < |ps| ==> IsAssigned(user, ps[k])
    ensures forall k :: 0 <= k < |ps| ==> HasStageOf(user, ps[k])
  {
    forall k | 0 <= k < |ps|
      ensures HasStageOf(user, ps[k])
    {
      var j := FindFirst(ps[k].stages, MatchesUser(user)).value;
      assert MatchesUser(user)(ps[k].stages[j]);
    }
  }

  /** A task: one of the user's stages still missing an approval. */
  predicate IsOpenTask(user: User, s: Stage)
  {
    StageMatches(user, s) && (!s.ikfApproved || !s.clientApproved)
  }

  function OpenFor(user: User): Stage -> bool
  {
    (s: Stage) => IsOpenTask(user, s)
  }

  /** `pendingTasks`: over the assigned projects, the user's stages missing
      an approval, tagged with their project. */
  function PendingTasks(user: User, ps: seq<Project>): (r: seq<StageOfProject>)
    ensures |r| == StageCount(AssignedProjects(user, ps), OpenFor(user))
  {
    StagesWhere(AssignedProjects(user, ps), OpenFor(user))
  }

  /** Narrowing to the assigned projects first changes nothing: a project
      that is not assigned has no stage of the user's to contribute. */
  lemma {:induction false} PendingTasksOverAllProjects(user: User, ps: seq<Project>)
    ensures PendingTasks(user, ps) == StagesWhere(ps, OpenFor(user))
  {
    if ps != [] {
      PendingTasksOverAllProjects(user, ps[1..]);
      FilterCons(ps, AssignedTo(user));
      if !IsAssigned(user, ps[0]) {
        FilterKeepsNone(ps[0].stages, OpenFor(user));
        assert Tagged(ps[0], OpenFor(user)) == [];
      } else {
        var ofUser := AssignedProjects(user, ps);
        assert ofUser == [ps[0]] + AssignedProjects(user, ps[1..]);
        assert ofUser[1..] == AssignedProjects(user, ps[1..]);
      }
    }
  }

  /** Every task belongs to an assigned project: it is the user's open stage
      of one of the projects, and that project is assigned. */
  lemma TaskProjectsAreAssigned(user: User, ps: seq<Project>)
    ensures forall k :: 0 <= k < |PendingTasks(user, ps)| ==>
      IsOpenTask(user, PendingTasks(user, ps)[k].stage)
      && exists i :: 0 <= i < |ps| && FromProject(PendingTasks(user, ps)[k], ps[i]) && IsAssigned(user, ps[i])
  {
    var ofUser := AssignedProjects(user, ps);
    StagesWhereSound(ofUser, OpenFor(user));
    var r := PendingTasks(user, ps);
    forall k | 0 <= k < |r|
      ensures exists i :: 0 <= i < |ps| && FromProject(r[k], ps[i]) && IsAssigned(user, ps[i])
    {
      var m :| 0 <= m < |ofUser| && FromProject(r[k], ofUser[m]);
      assert ofUser[m] in ps;
      var i :| 0 <= i < |ps| && ps[i] == ofUser[m];
      assert IsAssigned(user, ps[i]);
    }
  }

  /** Every open stage of the user's, in any project, is among the tasks. */
  lemma TasksComplete(user: User, ps: seq<Project>, i: nat, j: nat)
    requires i < |ps| && j < |ps[i].stages| && IsOpenTask(user, ps[i].stages[j])
    ensures StageOfProject(ps[i].stages[j], ps[i].name, ps[i].id) in PendingTasks(user, ps)
  {
    PendingTasksOverAllProjects(user, ps);
    StagesWhereComplete(ps, OpenFor(user), i, j);
  }

  // ---------------------------------------------------------------------
  // Hours
  // ---------------------------------------------------------------------

  function LoggedBy(user: User): Timesheet -> bool
  {
    (t: Timesheet) => t.userName == user.name
  }

  /** `userTimesheets`: the entries logged under the user's name. */
  function UserTimesheets(user: User, ts: seq<Timesheet>): (r: seq<Timesheet>)
    ensures IsSubsequence(r, ts)
    ensures forall k :: 0 <= k < |r| ==> r[k].userName == user.name
    ensures forall k :: 0 <= k < |ts| && ts[k].userName == user.name ==> ts[k] in r
  {
    FilterSubsequence(ts, LoggedBy(user));
    Filter(ts, LoggedBy(user))
  }

  /** The hours card: all of the user's hours, and those of the past week.
      Whether an entry falls in the past week is a clock reading, given here
      as the test `recent`. */
  datatype Hours = Hours(total: nat, thisWeek: nat)

  function UserHours(user: User, ts: seq<Timesheet>, recent: Timesheet -> bool): (r: Hours)
    ensures r.thisWeek <= r.total
    ensures r.total == TotalHours(UserTimesheets(user, ts))
  {
    var mine := UserTimesheets(user, ts);
    FilteredHoursWithinTotal(mine, recent);
    Hours(TotalHours(mine), TotalHours(Filter(mine, recent)))
  }

  /** A team member's own entries here are the ones the timesheets page
      shows them with no filter and no search. */
  lemma SameAsTimesheetsPage(user: User, ts: seq<Timesheet>)
    requires user.role == Team
    ensures TimesheetsView.FilteredTimesheets(Some(user), TimesheetsView.Filters(TimesheetsView.AllProjects, "all"), "", ts)
      == UserTimesheets(user, ts)
  {
    FilterAgreeing(ts, TimesheetsView.ShowsFor(Some(user), TimesheetsView.Filters(TimesheetsView.AllProjects, "all"), ""), LoggedBy(user));
  }
}
