/** The timesheets page: which entries a user sees under the chosen filters
    and search, the names filled in when an entry is logged, and the three
    hour totals under the list. */
module TimesheetsView {
  import opened Common
  import opened AuthSlice
  import opened ProjectsSlice
  import opened TimesheetsSlice

  /** The project filter: 'all', or the select's value as `parseInt` reads
      it — a number, or NaN, which no entry's project id equals. */
  datatype ProjectFilter = AllProjects | ProjectNumber(id: int) | NotANumber

  /** The filter state the list reads. `status` is a status name or "all". */
  datatype Filters = Filters(project: ProjectFilter, status: string)

  /** The predicate the list is filtered by, its checks in the page's order. */
  predicate Shows(user: Option<User>, f: Filters, term: string, t: Timesheet)
  {
    if HasRole(user, Client) then false
    else if HasRole(user, Team) && t.userName != user.value.name then false
    else if f.project.ProjectNumber? && t.projectId != f.project.id then false
    else if f.project.NotANumber? then false
    else if f.status != "all" && t.status != f.status then false
    else if term != "" && !IncludesIgnoringCase(t.workDescription, term) then false
    else true
  }

  function ShowsFor(user: Option<User>, f: Filters, term: string): Timesheet -> bool
  {
    (t: Timesheet) => Shows(user, f, term, t)
  }

  /** `filteredTimesheets`: the entries kept, in their order. A client sees
      none; a team member sees only their own; a project or status filter
      keeps exact matches; a non-empty search keeps descriptions containing
      the term, ignoring case. Every entry passing all checks is kept. */
  function FilteredTimesheets(user: Option<User>, f: Filters, term: string, ts: seq<Timesheet>): (r: seq<Timesheet>)
    ensures IsSubsequence(r, ts)
    ensures HasRole(user, Client) ==> r == []
    ensures f.project.NotANumber? ==> r == []
    ensures forall k :: 0 <= k < |r| && HasRole(user, Team) ==> r[k].userName == user.value.name
    ensures forall k :: 0 <= k < |r| && f.project.ProjectNumber? ==> r[k].projectId == f.project.id
    ensures forall k :: 0 <= k < |r| && f.status != "all" ==> r[k].status == f.status
    ensures forall k :: 0 <= k < |r| && term != "" ==> IncludesIgnoringCase(r[k].workDescription, term)
    ensures forall k :: 0 <= k < |ts| && Shows(user, f, term, ts[k]) ==> ts[k] in r
  {
    var r := Filter(ts, ShowsFor(user, f, term));
    FilterSubsequence(ts, ShowsFor(user, f, term));
    if HasRole(user, Client) || f.project.NotANumber? then
      FilterKeepsNone(ts, ShowsFor(user, f, term));
      r
    else
      r
  }

  /** With no user restriction and every filter at 'all' and no search, the
      whole list is shown. */
  lemma {:induction false} UnfilteredShowsAll(user: Option<User>, ts: seq<Timesheet>)
    requires !HasRole(user, Client) && !HasRole(user, Team)
    ensures FilteredTimesheets(user, Filters(AllProjects, "all"), "", ts) == ts
  {
    FilterKeepsAll(ts, ShowsFor(user, Filters(AllProjects, "all"), ""));
  }

  /** An empty search would keep every entry anyway: every string includes
      the empty string, so the page's truthiness guard on the term changes
      nothing. */
  lemma EmptySearchMatchesAll(description: string)
    ensures IncludesIgnoringCase(description, "")
  {
    assert Lower("") == "";
    IncludesEmpty(Lower(description));
  }

  /** Typing a search term never shows more entries than leaving it empty. */
  lemma {:induction false} SearchNarrows(user: Option<User>, f: Filters, term: string, ts: seq<Timesheet>)
    ensures |FilteredTimesheets(user, f, term, ts)| <= |FilteredTimesheets(user, f, "", ts)|
  {
    FilterWeaker(ts, ShowsFor(user, f, term), ShowsFor(user, f, ""));
  }

  // ---------------------------------------------------------------------
  // Logging an entry
  // ---------------------------------------------------------------------

  /** The log form: project and stage as the selects' numeric values. */
  datatype LogForm = LogForm(projectId: int, stageId: int, hoursSpent: nat, workDescription: string)

  /** The name of the first project with the form's id, or "" when none has it. */
  function ProjectNameFor(projects: seq<Project>, projectId: int): (r: string)
    ensures ProjectIndex(projects, projectId).None? ==> r == ""
    ensures ProjectIndex(projects, projectId).Some? ==> r == projects[ProjectIndex(projects, projectId).value].name
  {
    match ProjectIndex(projects, projectId)
    case None => ""
    case Some(i) => projects[i].name
  }

  /** The name of the first stage with the form's stage id inside that
      project, or "" when the project or the stage is missing. */
  function StageNameFor(projects: seq<Project>, projectId: int, stageId: int): (r: string)
    ensures ProjectIndex(projects, projectId).None? ==> r == ""
    ensures ProjectIndex(projects, projectId).Some? ==>
      var stages := projects[ProjectIndex(projects, projectId).value].stages;
      (StageIndex(stages, stageId).None? ==> r == "")
      && (StageIndex(stages, stageId).Some? ==> r == stages[StageIndex(stages, stageId).value].name)
  {
    match ProjectIndex(projects, projectId)
    case None => ""
    case Some(i) =>
      match StageIndex(projects[i].stages, stageId)
      case None => ""
      case Some(j) => projects[i].stages[j].name
  }

  /** `handleSubmit`'s payload: the form, the user's id and name, and the
      two looked-up names. It supplies no id, date or status of its own. */
  function SubmissionDraft(form: LogForm, user: User, projects: seq<Project>): (r: TimesheetDraft)
    ensures r.userId == user.id && r.userName == user.name
    ensures r.projectId == form.projectId && r.stageId == form.stageId
    ensures r.hoursSpent == form.hoursSpent && r.workDescription == form.workDescription
    ensures r.projectName == ProjectNameFor(projects, form.projectId)
    ensures r.stageName == StageNameFor(projects, form.projectId, form.stageId)
    ensures r.id.None? && r.dateLogged.None? && r.status.None?
  {
    TimesheetDraft(user.id, user.name, form.projectId, ProjectNameFor(projects, form.projectId),
                   form.stageId, StageNameFor(projects, form.projectId, form.stageId),
                   form.hoursSpent, form.workDescription, None, None, None)
  }

  predicate DistinctProjectIds(projects: seq<Project>)
  {
    forall i, j :: 0 <= i < j < |projects| ==> projects[i].id != projects[j].id
  }

  /** When project ids are distinct, a logged entry names the project whose
      id it carries, and a missing project gives both names empty. */
  lemma SubmissionNamesProject(form: LogForm, user: User, projects: seq<Project>, i: nat)
    requires DistinctProjectIds(projects)
    requires i < |projects| && projects[i].id == form.projectId
    ensures SubmissionDraft(form, user, projects).projectName == projects[i].name
  {
    var found := ProjectIndex(projects, form.projectId);
    assert found.Some?;
    assert projects[found.value].id == projects[i].id;
  }

  lemma MissingProjectGivesEmptyNames(form: LogForm, user: User, projects: seq<Project>)
    requires forall k :: 0 <= k < |projects| ==> projects[k].id != form.projectId
    ensures SubmissionDraft(form, user, projects).projectName == ""
    ensures SubmissionDraft(form, user, projects).stageName == ""
  {
  }

  /** What the store records for the submission: pending, with the names looked up. */
  lemma SubmissionIsRecordedPending(form: LogForm, user: User, projects: seq<Project>, id: int, today: string)
    ensures NewTimesheet(SubmissionDraft(form, user, projects), id, today).status == "pending"
    ensures NewTimesheet(SubmissionDraft(form, user, projects), id, today).userName == user.name
    ensures NewTimesheet(SubmissionDraft(form, user, projects), id, today).projectName == ProjectNameFor(projects, form.projectId)
  {
  }

  // ---------------------------------------------------------------------
  // Hour totals
  // ---------------------------------------------------------------------

  function HasStatus(status: string): Timesheet -> bool
  {
    (t: Timesheet) => t.status == status
  }

  /** The three figures under the list: total, approved and pending hours. */
  datatype HourSummary = HourSummary(total: nat, approved: nat, pending: nat)

  function SummarizeHours(shown: seq<Timesheet>): (r: HourSummary)
    ensures r.approved + r.pending <= r.total
  {
    ApprovedAndPendingWithinTotal(shown);
    HourSummary(TotalHours(shown),
                TotalHours(Filter(shown, HasStatus("approved"))),
                TotalHours(Filter(shown, HasStatus("pending"))))
  }

  /** Approved and pending hours never add up to more than the total: no
      entry is both. */
  lemma {:induction false} ApprovedAndPendingWithinTotal(ts: seq<Timesheet>)
    ensures TotalHours(Filter(ts, HasStatus("approved"))) + TotalHours(Filter(ts, HasStatus("pending")))
      <= TotalHours(ts)
  {
    if ts != [] {
      ApprovedAndPendingWithinTotal(ts[1..]);
      FilterCons(ts, HasStatus("approved"));
      FilterCons(ts, HasStatus("pending"));
      HoursOfCons(ts[0], Filter(ts[1..], HasStatus("approved")));
      HoursOfCons(ts[0], Filter(ts[1..], HasStatus("pending")));
    }
  }
}
