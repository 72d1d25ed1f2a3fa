# Project tracker: store slices and view derivations

This project models the logic of a small project-tracking web application. It is written
in Dafny, and it proves properties of that model.

In the application, projects move through an eight-stage workflow. Every stage needs two
approvals: an internal one (the `ikf` flag) and the client's. Progress is the weighted
share of stages that have both approvals. Team members log hours against stages in
timesheets. Three roles see the data differently: admin, team member and client.

## What is modelled

The three store slices become classes whose methods are the reducers.
- Each method's `ensures` gives the whole new state.
- That state is stated through pure functions of the old state.
- The properties of those functions are proved as lemmas beside them.

The slices:
- **Projects** (`ProjectsSlice`): the eight-entry stage template and its weights, and the fetch reducers.
  - Status update: finds the first project with the id and overwrites its status label.
  - Approval update: finds the project, then the stage, sets the `ikf` or `client` flag, and recomputes progress.
  - Progress is `Math.round(completed weight / total weight * 100)`. Weights are looked up by stage id in the global template. The total is taken over the whole template.
  - The seeded projects carry progress values (35, 15) that their flags do not produce (5).
- **Timesheets** (`TimesheetsSlice`): building a new entry, which is pending and has its own id and date; appending it; find-then-set-status; and the fetch reducers.
- **Auth** (`AuthSlice`):
  - Demo credential rule: a demo address with any password, or any address with `demo123`.
  - The role comes from substrings of the address; "admin" wins over "team".
  - The session transitions: login pending, fulfilled and rejected; logout; clear error; set token.

The views' derivations are pure functions over the store's data:
- `ProcessWorkflow`: the four-way stage status, the weighted percentage over its own hard-coded stages, and the four summary counts.
- `ProjectTimeline`: the 25/50/75/100 progress and status ladder per stage.
- `TimesheetsView`: the role-scoped timesheet filter, the names looked up when logging, and the hour totals.
- `ProjectsView`: the role, status and search filters of the project list, and its admin-only status change.
- The dashboards:
  - `ClientDashboard`: client projects, pending client approvals, approve and reject, stage dot, average progress.
  - `AdminDashboard`: status filter, pending and completed counts, average progress, and a status change with no role check of its own.
  - `TeamDashboard`: assigned projects, open tasks, the user's hours.
- `ProjectRollups`: the flatMap-over-filter and rounded-average shapes the dashboards share.
- `OnboardingGuide`: the six-step guide. It is a class whose step field Next and Previous update.
- `Common`: Option and Result, substring search, ASCII lower-casing, JavaScript `Math.round` of a ratio, `find` and `filter`.

Three behaviours of the code are modelled as written:
- Progress divides the completed weight by the whole template's total (100). It ignores the template's `requiresIKFApproval`/`requiresClientApproval` flags and has no guard against a zero total.
- The project list's team filter reads `project.team`, a field the store's projects do not have.
  - It throws when a project lacks it; this is modelled as an error result.
  - `ProjectsView.TeamProjects` and `ProjectsView.GetFilteredProjects` return `Err(TypeError)` exactly then.
- The timeline reads `internalApproved` and `completedDate`; the store's stages have `ikfApproved` and `dateCompleted`.
  - Each file is modelled with its own field names.
  - `ProjectTimeline.StoreStagesNeverAdvance` shows that a store stage always shows 25% and "not started" there.

## Model

| member | source | states |
|---|---|---|
| AuthSlice.RoleFor | src/store/slices/authSlice.js:44-46 | admin iff the address contains "admin"; team iff it contains "team" but not "admin"; client otherwise |
| AuthSlice.MockUser | src/store/slices/authSlice.js:19-41 | the fixed record of a role carries that role and the typed address |
| AuthSlice.LoginUser | src/store/slices/authSlice.js:12-48 | rejected with "Invalid credentials" iff the address is not a demo address and the password is not demo123; otherwise the fixed user of the derived role, with the typed address |
| AuthSlice.DemoAddressRoles | src/store/slices/authSlice.js:44-46 | each demo address gets the role its name says |
| AuthSlice.DemoAddressesLogIn | src/store/slices/authSlice.js:12-48 | each demo address logs in, with any password, as its own role |
| AuthSlice.AdminWinsOverTeam | src/store/slices/authSlice.js:44-46 | an address containing both "admin" and "team" logs in as admin |
| AuthSlice.AuthStore.constructor | src/store/slices/authSlice.js:64-70 | no user, not authenticated, not loading, no error, no token |
| AuthSlice.AuthStore.LoginPending | src/store/slices/authSlice.js:85-88 | loading, error cleared, everything else kept |
| AuthSlice.AuthStore.LoginFulfilled | src/store/slices/authSlice.js:89-94 | authenticated as the payload user, not loading, error cleared, token kept |
| AuthSlice.AuthStore.LoginRejected | src/store/slices/authSlice.js:95-98 | not loading, error is the message, user and authentication kept |
| AuthSlice.AuthStore.Login | src/store/slices/authSlice.js:85-98 | a whole login: signed in as the credential rule's user, or the previous session kept with "Invalid credentials" |
| AuthSlice.AuthStore.LogoutFulfilled | src/store/slices/authSlice.js:99-104 | user, token and error cleared, not authenticated, loading flag untouched |
| AuthSlice.AuthStore.ClearError | src/store/slices/authSlice.js:76-78 | error cleared, nothing else changes |
| AuthSlice.AuthStore.SetToken | src/store/slices/authSlice.js:79-81 | token set, nothing else changes |
| ProjectsSlice.TemplateTotal | src/store/slices/projectsSlice.js:4-69 | the template's weights sum to 100 |
| ProjectsSlice.TemplateIds | src/store/slices/projectsSlice.js:4-69 | the template's ids are 1 to 8 in order |
| ProjectsSlice.WeightOf | src/store/slices/projectsSlice.js:206-207 | the weight of the first template entry with that id; 0 for an id not in the template; never more than the template total |
| ProjectsSlice.ProgressIsCompletedWeight | src/store/slices/projectsSlice.js:202-210 | the rounded percentage equals the completed weight exactly, because the total is 100 |
| ProjectsSlice.ProgressBounds | src/store/slices/projectsSlice.js:202-210 | progress lies in 0..100 when the stage ids are distinct |
| ProjectsSlice.ProjectIndex | src/store/slices/projectsSlice.js:186 | the first project with the id; none iff no project has it |
| ProjectsSlice.StageIndex | src/store/slices/projectsSlice.js:194 | the first stage with the id; none iff no stage has it |
| ProjectsSlice.SetFlag | src/store/slices/projectsSlice.js:196-200 | 'ikf' sets exactly the internal flag and 'client' exactly the client flag to the given value; any other type sets neither; no other field changes |
| ProjectsSlice.SetFlagRevert | src/store/slices/projectsSlice.js:196-200 | setting a flag back to its earlier value restores the stage |
| ProjectsSlice.ApproveInProject | src/store/slices/projectsSlice.js:194-211 | unknown stage: project unchanged; else only that stage's flag changes and progress becomes the completed weight of the new stages |
| ProjectsSlice.ApplyStageApproval | src/store/slices/projectsSlice.js:191-213 | unknown project: list unchanged; else only the found project changes, as the stage update says; length kept |
| ProjectsSlice.ApplyProjectStatus | src/store/slices/projectsSlice.js:185-190 | unknown project: list unchanged; else only the found project's status changes, to any given value |
| ProjectsSlice.ApproveInProjectRevert | src/store/slices/projectsSlice.js:194-210 | within one project, approving a found stage and setting the flag back restores its stages, with progress recomputed from them |
| ProjectsSlice.ApprovalRevert | src/store/slices/projectsSlice.js:196-210 | approving then setting the flag back restores every project except that the target's progress is recomputed from its original stages |
| ProjectsSlice.UnknownTypeOnlyRecomputes | src/store/slices/projectsSlice.js:196-210 | an approval type other than 'ikf'/'client' sets no flag but still recomputes the found project's progress |
| ProjectsSlice.StatusAndApprovalIndependent | src/store/slices/projectsSlice.js:185-213 | a status update keeps every stage and progress; an approval update keeps every status |
| ProjectsSlice.ApprovalEstablishesConsistency | src/store/slices/projectsSlice.js:202-210 | an approval update keeps every project's progress equal to the progress of its stages |
| ProjectsSlice.SeededProgressIsStale | src/store/slices/projectsSlice.js:72-111 | the seeded projects store progress 35 and 15 while their flags give 5 |
| ProjectsSlice.SeedHasOnlyFirstDone | src/store/slices/projectsSlice.js:4-12 | stages with only stage 1 (weight 5) fully approved have progress 5 |
| ProjectsSlice.ProjectsStore.constructor | src/store/slices/projectsSlice.js:152-157 | no projects, not loading, no error, nothing selected |
| ProjectsSlice.ProjectsStore.FetchProjectsPending | src/store/slices/projectsSlice.js:172-175 | loading, error cleared, projects kept |
| ProjectsSlice.ProjectsStore.FetchProjectsFulfilled | src/store/slices/projectsSlice.js:176-180 | projects replaced by the payload, not loading, error cleared |
| ProjectsSlice.ProjectsStore.FetchProjectsRejected | src/store/slices/projectsSlice.js:181-184 | not loading, error is the message, projects kept |
| ProjectsSlice.ProjectsStore.UpdateProjectStatusFulfilled | src/store/slices/projectsSlice.js:185-190 | projects become the status update of the old list; other fields kept |
| ProjectsSlice.ProjectsStore.UpdateStageApprovalFulfilled | src/store/slices/projectsSlice.js:191-213 | projects become the approval update of the old list; other fields kept |
| ProjectsSlice.ProjectsStore.SetSelectedProject | src/store/slices/projectsSlice.js:163-165 | selection set, nothing else changes |
| ProjectsSlice.ProjectsStore.ClearError | src/store/slices/projectsSlice.js:166-168 | error cleared, nothing else changes |
| TimesheetsSlice.NewTimesheet | src/store/slices/timesheetsSlice.js:80-85 | the caller's fields kept, with its own id and date and status 'pending' |
| TimesheetsSlice.NewTimesheetIgnoresOverrides | src/store/slices/timesheetsSlice.js:80-85 | caller-supplied id, date or status never reach the new entry |
| TimesheetsSlice.TimesheetIndex | src/store/slices/timesheetsSlice.js:144 | the first entry with the id; none iff no entry has it |
| TimesheetsSlice.ApplyTimesheetStatus | src/store/slices/timesheetsSlice.js:143-148 | unknown id: list unchanged; else only the first matching entry's status changes; length kept |
| TimesheetsSlice.ApplyTimesheetStatusIdempotent | src/store/slices/timesheetsSlice.js:143-148 | repeating the same status update changes nothing more |
| TimesheetsSlice.ApplyTimesheetStatusOverwrites | src/store/slices/timesheetsSlice.js:143-148 | a second status update replaces the first |
| TimesheetsSlice.TimesheetsStore.constructor | src/store/slices/timesheetsSlice.js:107-112 | no entries, not loading, no error, nothing selected |
| TimesheetsSlice.TimesheetsStore.FetchTimesheetsPending | src/store/slices/timesheetsSlice.js:127-130 | loading, error cleared, entries kept |
| TimesheetsSlice.TimesheetsStore.FetchTimesheetsFulfilled | src/store/slices/timesheetsSlice.js:131-135 | entries replaced by the payload, not loading, error cleared |
| TimesheetsSlice.TimesheetsStore.FetchTimesheetsRejected | src/store/slices/timesheetsSlice.js:136-139 | not loading, error is the message, entries kept |
| TimesheetsSlice.TimesheetsStore.LogTimesheetFulfilled | src/store/slices/timesheetsSlice.js:140-142 | the entry appended: one longer, earlier entries unchanged, last is the payload |
| TimesheetsSlice.TimesheetsStore.UpdateTimesheetStatusFulfilled | src/store/slices/timesheetsSlice.js:143-148 | entries become the status update of the old list; other fields kept |
| TimesheetsSlice.TimesheetsStore.SetSelectedTimesheet | src/store/slices/timesheetsSlice.js:118-120 | selection set, nothing else changes |
| TimesheetsSlice.TimesheetsStore.ClearError | src/store/slices/timesheetsSlice.js:121-123 | error cleared, nothing else changes |
| ProcessWorkflow.GetStageStatus | src/components/workflow/ProcessWorkflow.js:109-114 | completed iff the completed flag; else in progress iff that status; else partially completed iff either approval; else pending |
| ProcessWorkflow.ProgressPercentage | src/components/workflow/ProcessWorkflow.js:146-151 | undefined (NaN) iff the total weight is 0; otherwise in 0..100 |
| ProcessWorkflow.CompletedWeightAtMostTotal | src/components/workflow/ProcessWorkflow.js:147-149 | the completed stages' weight never exceeds the total weight |
| ProcessWorkflow.PercentageIgnoresApprovals | src/components/workflow/ProcessWorkflow.js:146-151 | stages agreeing on weights and completed flags give the same percentage, whatever their approvals |
| ProcessWorkflow.Panel | src/components/workflow/ProcessWorkflow.js:15-18 | for every project argument the panel shows 15%, 2 completed, 1 in progress, 3 pending approval, 5 not started |
| ProcessWorkflow.HardCodedSummary | src/components/workflow/ProcessWorkflow.js:172-196 | the hard-coded stages give 15% and the counts 2, 1, 3, 5 |
| ProcessWorkflow.PendingApprovalCoversCompleted | src/components/workflow/ProcessWorkflow.js:172-196 | when completed stages carry an approval, the pending-approval count is at least the completed count, so the two overlap |
| ProjectTimeline.StageProgress | src/components/projects/ProjectTimeline.js:100-102 | 100 iff both approvals; 75 iff internal only; 50 iff not internal and dated; 25 otherwise; never above 50 without internal approval |
| ProjectTimeline.StageStatus | src/components/projects/ProjectTimeline.js:111-113 | completed, pending client, pending internal, not started, in the same precedence |
| ProjectTimeline.StatusMatchesProgress | src/components/projects/ProjectTimeline.js:100-113 | status and progress correspond one to one |
| ProjectTimeline.StageTimeline | src/components/projects/ProjectTimeline.js:95-116 | one entry per stage, in order, with the stage, its index, its progress and its status |
| ProjectTimeline.TimelineConsistent | src/components/projects/ProjectTimeline.js:100-113 | every entry's progress is the one its status stands for |
| ProjectTimeline.StoreStagesNeverAdvance | src/components/projects/ProjectTimeline.js:100-113 | a stage from the store, lacking the fields read here, always shows 25 and not started |
| TimesheetsView.FilteredTimesheets | src/components/timesheets/Timesheets.js:31-44 | an order-preserving subsequence; empty for a client or a non-numeric project filter; team sees own entries; exact project and status matches; case-insensitive search; every entry passing all tests kept |
| TimesheetsView.UnfilteredShowsAll | src/components/timesheets/Timesheets.js:31-44 | an admin with no filter and no search sees every entry |
| TimesheetsView.EmptySearchMatchesAll | src/components/timesheets/Timesheets.js:41 | the empty term matches every description |
| TimesheetsView.SearchNarrows | src/components/timesheets/Timesheets.js:41 | a search never shows more entries than no search |
| TimesheetsView.ProjectNameFor | src/components/timesheets/Timesheets.js:59 | the first matching project's name, or '' when none matches |
| TimesheetsView.StageNameFor | src/components/timesheets/Timesheets.js:60-62 | the matching stage's name in the first matching project, or '' |
| TimesheetsView.SubmissionDraft | src/components/timesheets/Timesheets.js:53-63 | the form's fields plus the user's id and name and the looked-up names; no id, date or status |
| TimesheetsView.SubmissionNamesProject | src/components/timesheets/Timesheets.js:59 | with distinct project ids the submission names the project with the form's id |
| TimesheetsView.MissingProjectGivesEmptyNames | src/components/timesheets/Timesheets.js:59-62 | an unknown project gives '' for both names |
| TimesheetsView.SubmissionIsRecordedPending | src/components/timesheets/Timesheets.js:53-65 | a submitted entry is stored pending, under the user's name, with the looked-up project name |
| TimesheetsView.SummarizeHours | src/components/timesheets/Timesheets.js:390-414 | approved plus pending hours never exceed the total |
| TimesheetsView.ApprovedAndPendingWithinTotal | src/components/timesheets/Timesheets.js:400-414 | the approved and pending sums together stay within the total |
| ProjectsView.TeamProjects | src/components/projects/Projects.js:34-38 | fails iff some project lacks a team; otherwise exactly the projects with the user as member, in order |
| ProjectsView.RoleProjects | src/components/projects/Projects.js:27-38 | fails iff a team user meets a project without a team; an order-preserving subsequence; all projects for other roles |
| Common.FilterMultiplicity | src/components/projects/Projects.js:41-51 | a filter keeps every copy of a passing element and no copy of a failing one, so the filtered lists are exact in multiplicity too |
| ProjectsView.ByStatus | src/components/projects/Projects.js:41-43 | all projects for 'all'; otherwise exactly the exact matches, in order |
| ProjectsView.BySearch | src/components/projects/Projects.js:46-51 | all projects for the empty term; otherwise exactly those whose name or client contains it ignoring case, in order |
| ProjectsView.EmptyTermMatches | src/components/projects/Projects.js:46 | the empty term matches every text |
| ProjectsView.GetFilteredProjects | src/components/projects/Projects.js:24-54 | fails iff a team user meets a project without a team; otherwise an order-preserving subsequence obeying role, status and search |
| ProjectsView.RoleProjectsComplete | src/components/projects/Projects.js:27-38 | every project passing the role's rule is among the role's projects |
| ProjectsView.FilteredProjectsComplete | src/components/projects/Projects.js:24-54 | every project passing role, status and search is listed |
| ProjectsView.StatusChangeDispatch | src/components/projects/Projects.js:58-62 | a status update is dispatched iff the user is an admin |
| ProjectsView.NonAdminCannotChangeStatus | src/components/projects/Projects.js:58-62 | for anyone but an admin the project list is unchanged |
| ProjectsView.AdminChangesStatus | src/components/projects/Projects.js:58-62 | for an admin the found project takes the new status |
| ProjectRollups.Tagged | src/components/dashboard/ClientDashboard.js:34-42 | one entry per kept stage, in order, each with its project's name and id |
| ProjectRollups.StagesWhere | src/components/dashboard/ClientDashboard.js:34-42 | as many entries as kept stages over all projects |
| ProjectRollups.StagesWhereSound | src/components/dashboard/TeamDashboard.js:37-48 | every entry is a kept stage of one of the projects, tagged with it |
| ProjectRollups.StagesWhereComplete | src/components/dashboard/TeamDashboard.js:37-48 | every kept stage of every project appears, tagged with its project |
| ProjectRollups.StagesWhereAppend | src/components/dashboard/ClientDashboard.js:34-42 | the entries of two runs of projects are those of the first followed by those of the second |
| ProjectRollups.StageCountPartition | src/components/dashboard/AdminDashboard.js:29-31 | counting by a test and by its negation counts every stage once |
| ProjectRollups.AverageProgress | src/components/dashboard/AdminDashboard.js:244-246 | 0 for no projects; within 0..100 when every progress is |
| ProjectRollups.AverageOfEqual | src/components/dashboard/AdminDashboard.js:244-246 | projects all at the same progress average to it |
| ClientDashboard.ClientProjects | src/components/dashboard/ClientDashboard.js:18-22 | exactly the projects whose lower-cased client contains 'client', 'inc' or 'xyz', in order |
| ClientDashboard.SameAsProjectPage | src/components/dashboard/ClientDashboard.js:18-22 | the same list the project page shows a client with no filters |
| ClientDashboard.PendingApprovals | src/components/dashboard/ClientDashboard.js:33-43 | as many entries as stages without client approval over the client projects |
| ClientDashboard.PendingApprovalsSound | src/components/dashboard/ClientDashboard.js:33-43 | each entry is a stage without client approval of a client project, tagged with it |
| ClientDashboard.PendingApprovalsComplete | src/components/dashboard/ClientDashboard.js:33-43 | every stage without client approval of every client project is listed |
| ClientDashboard.HandleClientApproval | src/components/dashboard/ClientDashboard.js:24-31 | always an approval update of type 'client' with the given project, stage and value |
| ClientDashboard.Approve | src/components/dashboard/ClientDashboard.js:129 | a 'client' approval of the entry's project and stage with value true |
| ClientDashboard.Reject | src/components/dashboard/ClientDashboard.js:136 | a 'client' approval of the entry's project and stage with value false |
| ClientDashboard.ClientApprovalKeepsProjectFlags | src/components/dashboard/ClientDashboard.js:24-31 | within one project a client approval keeps every internal flag and the number of stages |
| ClientDashboard.ClientApprovalKeepsInternalFlags | src/components/dashboard/ClientDashboard.js:24-31 | a client approval never changes an internal flag nor the number of projects or stages |
| ClientDashboard.ClientApprovalSetsFlag | src/components/dashboard/ClientDashboard.js:24-31 | a client approval of a found stage sets its client flag to the button's value |
| ClientDashboard.StageDot | src/components/dashboard/ClientDashboard.js:164-168 | success iff both flags, warning iff exactly one, gray iff neither |
| ClientDashboard.ClientAverageProgress | src/components/dashboard/ClientDashboard.js:241-245 | 0 when there are no client projects; within 0..100 when every progress is |
| AdminDashboard.FilteredProjects | src/components/dashboard/AdminDashboard.js:24-26 | all projects for 'all'; otherwise exactly the exact matches, in order |
| AdminDashboard.SameAsProjectPage | src/components/dashboard/AdminDashboard.js:24-26 | the same list the project page shows an admin with that status and no search |
| AdminDashboard.PendingApprovals | src/components/dashboard/AdminDashboard.js:29-31 | the stages missing either approval: all stages minus the fully approved ones |
| AdminDashboard.CompletedStages | src/components/dashboard/AdminDashboard.js:256-258 | the fully approved stages, never more than all stages |
| AdminDashboard.CountsPartitionStages | src/components/dashboard/AdminDashboard.js:29-31 | pending plus completed equals the number of stages |
| AdminDashboard.ClientWaitsAreCounted | src/components/dashboard/AdminDashboard.js:29-31 | every stage waiting for the client is among the pending ones |
| AdminDashboard.AdminAverageProgress | src/components/dashboard/AdminDashboard.js:244-246 | 0 for no projects; within 0..100 when every progress is |
| AdminDashboard.HandleStatusChange | src/components/dashboard/AdminDashboard.js:20-22 | a status update is always dispatched |
| AdminDashboard.UngatedUnlikeProjectPage | src/components/dashboard/AdminDashboard.js:20-22 | this page's handler has no role check of its own and always applies the status, where the project page's handler drops a non-admin's change |
| TeamDashboard.AssignedProjects | src/components/dashboard/TeamDashboard.js:19-24 | exactly the projects with a stage naming the user or whose role label contains the user's role, in order |
| TeamDashboard.PendingTasks | src/components/dashboard/TeamDashboard.js:37-48 | as many entries as the user's open stages over the assigned projects |
| TeamDashboard.PendingTasksOverAllProjects | src/components/dashboard/TeamDashboard.js:37-48 | narrowing to assigned projects first changes nothing |
| TeamDashboard.TaskProjectsAreAssigned | src/components/dashboard/TeamDashboard.js:19-48 | every task is an open stage of the user's from an assigned project |
| TeamDashboard.TasksComplete | src/components/dashboard/TeamDashboard.js:37-48 | every open stage of the user's, in any project, is a task |
| TeamDashboard.UserTimesheets | src/components/dashboard/TeamDashboard.js:27 | exactly the entries logged under the user's name, in order |
| TeamDashboard.UserHours | src/components/dashboard/TeamDashboard.js:27-34 | the total is the user's hours; the weekly hours never exceed it |
| TeamDashboard.SameAsTimesheetsPage | src/components/dashboard/TeamDashboard.js:27 | the entries the timesheets page shows the same team member with no filter |
| OnboardingGuide.NextOf | src/components/onboarding/OnboardingGuide.js:201-207 | one step on below the last step, unchanged on it; always a valid step |
| OnboardingGuide.NextCloses | src/components/onboarding/OnboardingGuide.js:201-207 | Next asks to close iff it does not move |
| OnboardingGuide.PrevOf | src/components/onboarding/OnboardingGuide.js:209-213 | one step back above step 0, unchanged at 0; always a valid step |
| OnboardingGuide.NextLabel | src/components/onboarding/OnboardingGuide.js:269 | the button reads "Finish" iff Next would close |
| OnboardingGuide.PrevUndoesNext | src/components/onboarding/OnboardingGuide.js:201-213 | Previous after Next returns to any step but the last |
| OnboardingGuide.NextUndoesPrev | src/components/onboarding/OnboardingGuide.js:201-213 | Next after Previous returns to any step but the first |
| OnboardingGuide.AfterNexts | src/components/onboarding/OnboardingGuide.js:201-207 | any number of Next presses keeps the step valid |
| OnboardingGuide.NextsStopAtLast | src/components/onboarding/OnboardingGuide.js:201-207 | n presses of Next move n steps on, stopping at the last |
| OnboardingGuide.Guide.constructor | src/components/onboarding/OnboardingGuide.js:15 | the guide starts on step 0 |
| OnboardingGuide.Guide.NextStep | src/components/onboarding/OnboardingGuide.js:201-207 | the step stays in 0..5 and moves as Next says; a close request is added exactly on the last step |
| OnboardingGuide.Guide.PrevStep | src/components/onboarding/OnboardingGuide.js:209-213 | the step stays in 0..5 and moves as Previous says; no close request |
| OnboardingGuide.Guide.Close | src/components/onboarding/OnboardingGuide.js:226-231 | the header's close button asks to close from any step, leaving the step |

## Left out

- The asynchronous thunks and their simulated delays: each fulfilled payload is applied synchronously by the reducer's method.
- The fetch thunks' payloads: `FetchProjectsFulfilled` and `FetchTimesheetsFulfilled` take any list. The projects' seed data is `ProjectsSlice.MockProjects`.
- `Date.now()` ids and today's date for new timesheets: they are parameters of `TimesheetsSlice.NewTimesheet`.
- The week-ago cutoff of the team dashboard reads the clock. Whether an entry is recent is a parameter `recent` of `TeamDashboard.UserHours`.
- All JSX rendering, tabs, modals, colour and icon pickers. The timeline's dates, durations and calendar grid are date arithmetic.
- Floating point: `Math.round` of a ratio is computed exactly on integers. The model does not reproduce rounding error in the division.
- Hours are non-negative integers (for example half-hour units). A form-entered `hoursSpent` is a string that `reduce` would concatenate; that coercion is not modelled.
- The log form keeps the selected project and stage ids as strings, and the stored entry carries those strings. The model keeps every id an integer. So it does not capture that the timesheet filter's `ts.projectId !== parseInt(filters.project)` hides every entry logged through the form whenever a project is selected; the model would show it. The name lookups at submission do parse the ids, and the integers reproduce that. A non-numeric project choice in the filter is modelled as `NotANumber`, which matches nothing.
- AdminDashboard.UngatedUnlikeProjectPage compares the two handlers on their own. The dashboard switch shows the admin page only for the admin role or an unrecognised role, so a logged-in team member or client never reaches this handler. The switch itself is not part of this model.
- The timesheets page's `handleStatusUpdate` and the dashboards' other handlers only dispatch. Their effect is `TimesheetsSlice.TimesheetsStore.UpdateTimesheetStatusFulfilled` and `ProjectsSlice.ProjectsStore.UpdateStageApprovalFulfilled`.
- `toLowerCase` is modelled for ASCII letters only.
- TeamDashboard.AssignedProjects, TeamDashboard.PendingTasks and TeamDashboard.UserTimesheets require a logged-in user. The page with nobody logged in, where `user?.name` is undefined, is not modelled.
- The users slice, routing, the store wiring and the other components are not part of this model.
