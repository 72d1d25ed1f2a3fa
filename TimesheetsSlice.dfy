/** The timesheets slice of the store: building a new entry, appending it,
    and setting the review status of an existing one. */
module TimesheetsSlice {
  import opened Common

  /** A logged timesheet. Hours are counted in whole units (half hours in the
      form), never negative. */
  datatype Timesheet = Timesheet(
    id: int,
    userId: int,
    userName: string,
    projectId: int,
    projectName: string,
    stageId: int,
    stageName: string,
    hoursSpent: nat,
    workDescription: string,
    dateLogged: string,
    status: string)

  /** What a caller hands to `logTimesheet`: the form's fields, and possibly
      values of its own for the three fields the thunk always overwrites. */
  datatype TimesheetDraft = TimesheetDraft(
    userId: int,
    userName: string,
    projectId: int,
    projectName: string,
    stageId: int,
    stageName: string,
    hoursSpent: nat,
    workDescription: string,
    id: Option<int>,
    dateLogged: Option<string>,
    status: Option<string>)

  /** The record `logTimesheet` resolves with: the caller's fields, a fresh id
      (the clock reading, passed in), today's date (passed in) and the status
      'pending', whatever the caller supplied for those three. */
  function NewTimesheet(d: TimesheetDraft, id: int, today: string): (r: Timesheet)
    ensures r.id == id && r.dateLogged == today && r.status == "pending"
    ensures r.userId == d.userId && r.userName == d.userName
    ensures r.projectId == d.projectId && r.projectName == d.projectName
    ensures r.stageId == d.stageId && r.stageName == d.stageName
    ensures r.hoursSpent == d.hoursSpent && r.workDescription == d.workDescription
  {
    Timesheet(id, d.userId, d.userName, d.projectId, d.projectName, d.stageId, d.stageName,
              d.hoursSpent, d.workDescription, today, "pending")
  }

  /** The caller's own id, date and status never survive. */
  lemma NewTimesheetIgnoresOverrides(d: TimesheetDraft, id: int, today: string, otherId: Option<int>, otherDate: Option<string>, otherStatus: Option<string>)
    ensures NewTimesheet(d, id, today) == NewTimesheet(d.(id := otherId, dateLogged := otherDate, status := otherStatus), id, today)
  {
  }

  function HasTimesheetId(id: int): Timesheet -> bool
  {
    (t: Timesheet) => t.id == id
  }

  /** `timesheets.find(t => t.id === id)`, as a position. */
  function TimesheetIndex(ts: seq<Timesheet>, id: int): (r: Option<nat>)
    ensures r.Some? ==> r.value < |ts| && ts[r.value].id == id
    ensures r.Some? ==> forall k :: 0 <= k < r.value ==> ts[k].id != id
    ensures r.None? <==> forall k :: 0 <= k < |ts| ==> ts[k].id != id
  {
    FindFirst(ts, HasTimesheetId(id))
  }

  /** The `updateTimesheetStatus` reducer: the first entry with the id gets
      the new status, nothing else changes; an unknown id changes nothing. */
  function ApplyTimesheetStatus(ts: seq<Timesheet>, id: int, status: string): (r: seq<Timesheet>)
    ensures |r| == |ts|
    ensures TimesheetIndex(ts, id).None? ==> r == ts
    ensures forall k :: 0 <= k < |ts| && TimesheetIndex(ts, id) != Some(k) ==> r[k] == ts[k]
    ensures TimesheetIndex(ts, id).Some? ==>
      var i := TimesheetIndex(ts, id).value;
      r[i].status == status && r[i].(status := ts[i].status) == ts[i]
  {
    match TimesheetIndex(ts, id)
    case None => ts
    case Some(i) => ts[i := ts[i].(status := status)]
  }

  /** Repeating a status update changes nothing more. */
  lemma {:induction false} ApplyTimesheetStatusIdempotent(ts: seq<Timesheet>, id: int, status: string)
    ensures ApplyTimesheetStatus(ApplyTimesheetStatus(ts, id, status), id, status) == ApplyTimesheetStatus(ts, id, status)
  {
    var once := ApplyTimesheetStatus(ts, id, status);
    FindFirstStable(ts, once, HasTimesheetId(id));
  }

  /** Two updates of the same entry: the later status wins. */
  lemma {:induction false} ApplyTimesheetStatusOverwrites(ts: seq<Timesheet>, id: int, first: string, second: string)
    ensures ApplyTimesheetStatus(ApplyTimesheetStatus(ts, id, first), id, second) == ApplyTimesheetStatus(ts, id, second)
  {
    var once := ApplyTimesheetStatus(ts, id, first);
    FindFirstStable(ts, once, HasTimesheetId(id));
  }

  // ---------------------------------------------------------------------
  // Hours
  // ---------------------------------------------------------------------

  /** `reduce((sum, ts) => sum + ts.hoursSpent, 0)`. */
  function TotalHours(ts: seq<Timesheet>): nat
  {
    if ts == [] then 0 else ts[0].hoursSpent + TotalHours(ts[1..])
  }

  lemma HoursOfCons(t: Timesheet, rest: seq<Timesheet>)
    ensures TotalHours([t] + rest) == t.hoursSpent + TotalHours(rest)
  {
    assert ([t] + rest)[1..] == rest;
  }

  /** Hours of any filtered part never exceed the hours of the whole. */
  lemma {:induction false} FilteredHoursWithinTotal(ts: seq<Timesheet>, p: Timesheet -> bool)
    ensures TotalHours(Filter(ts, p)) <= TotalHours(ts)
  {
    if ts != [] {
      FilteredHoursWithinTotal(ts[1..], p);
      FilterCons(ts, p);
      if p(ts[0]) {
        HoursOfCons(ts[0], Filter(ts[1..], p));
      }
    }
  }

  class TimesheetsStore {
    var timesheets: seq<Timesheet>
    var isLoading: bool
    var error: Option<string>
    var selectedTimesheet: Option<Timesheet>

    constructor ()
      ensures timesheets == [] && !isLoading && error == None && selectedTimesheet == None
    {
      timesheets := [];
      isLoading := false;
      error := None;
      selectedTimesheet := None;
    }

    method FetchTimesheetsPending()
      modifies this
      ensures isLoading && error == None
      ensures timesheets == old(timesheets) && selectedTimesheet == old(selectedTimesheet)
    {
      isLoading := true;
      error := None;
    }

    method FetchTimesheetsFulfilled(payload: seq<Timesheet>)
      modifies this
      ensures !isLoading && error == None && timesheets == payload
      ensures selectedTimesheet == old(selectedTimesheet)
    {
      isLoading := false;
      timesheets := payload;
      error := None;
    }

    method FetchTimesheetsRejected(message: string)
      modifies this
      ensures !isLoading && error == Some(message)
      ensures timesheets == old(timesheets) && selectedTimesheet == old(selectedTimesheet)
    {
      isLoading := false;
      error := Some(message);
    }

    /** `state.timesheets.push(action.payload)`. */
    method LogTimesheetFulfilled(entry: Timesheet)
      modifies this
      ensures timesheets == old(timesheets) + [entry]
      ensures |timesheets| == |old(timesheets)| + 1 && timesheets[|timesheets| - 1] == entry
      ensures forall k :: 0 <= k < |old(timesheets)| ==> timesheets[k] == old(timesheets)[k]
      ensures isLoading == old(isLoading) && error == old(error) && selectedTimesheet == old(selectedTimesheet)
    {
      timesheets := timesheets + [entry];
    }

    method UpdateTimesheetStatusFulfilled(id: int, status: string)
      modifies this
      ensures timesheets == ApplyTimesheetStatus(old(timesheets), id, status)
      ensures isLoading == old(isLoading) && error == old(error) && selectedTimesheet == old(selectedTimesheet)
    {
      var found := TimesheetIndex(timesheets, id);
      if found.Some? {
        var i := found.value;
        timesheets := timesheets[i := timesheets[i].(status := status)];
      }
    }

    method SetSelectedTimesheet(t: Option<Timesheet>)
      modifies this
      ensures selectedTimesheet == t
      ensures timesheets == old(timesheets) && isLoading == old(isLoading) && error == old(error)
    {
      selectedTimesheet := t;
    }

    method ClearError()
      modifies this
      ensures error == None
      ensures timesheets == old(timesheets) && isLoading == old(isLoading) && selectedTimesheet == old(selectedTimesheet)
    {
      error := None;
    }
  }
}
