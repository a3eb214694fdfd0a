/**
 * The store-hours form: the day picker, the per-field edits with their
 * "unsaved changes" flag, saving, and the status-history table.
 * The store's own open/closed state and schedule tick are not part of this model;
 * saving hands the schedule over and is modelled by returning it.
 */
module StoreSettings {
  import opened Lists

  /** The day numbers the picker offers, 0 (Sunday) to 6 (Saturday). */
  type Weekday = d: int | 0 <= d <= 6

  datatype StoreSchedule = StoreSchedule(enabled: bool, openTime: string, closeTime: string, daysOfWeek: seq<Weekday>)

  /** The page's local state: the schedule being edited and whether it differs from the saved one. */
  datatype ScheduleForm = ScheduleForm(schedule: StoreSchedule, hasChanges: bool)

  /** `handleScheduleChange(field, value)`, one constructor per field of the schedule. */
  datatype ScheduleEdit =
    | SetEnabled(enabled: bool)
    | SetOpenTime(openTime: string)
    | SetCloseTime(closeTime: string)
    | SetDaysOfWeek(days: seq<Weekday>)

  datatype ChangeTypeLabel = ManualLabel | AutomaticLabel

  /** A row of the status history, as the table reads it. */
  datatype StatusLog = StatusLog(id: string, timestamp: string, status: string, changeType: string,
                                 reason: string, changedBy: string)

  const HistoryRows: nat := 20

  // ---------------------------------------------------------------------------
  // Day picker

  function DayKey(d: Weekday): int { d }

  predicate SortedDays(days: seq<Weekday>) {
    SortedBy(days, DayKey)
  }

  /** Ascending with no day twice. */
  predicate StrictlySortedDays(days: seq<Weekday>) {
    forall i, j :: 0 <= i < j < |days| ==> days[i] < days[j]
  }

  /** `days.filter(d => d !== day)` */
  function RemoveDay(days: seq<Weekday>, day: Weekday): (r: seq<Weekday>)
    ensures forall d :: d in r <==> d in days && d != day
    ensures IsSubsequence(r, days)
    // every copy of every other day is kept
    ensures forall d :: multiset(r)[d] == if d != day then multiset(days)[d] else 0
  {
    if days == [] then []
    else
      assert days == [days[0]] + days[1..];
      if days[0] != day then [days[0]] + RemoveDay(days[1..], day)
      else RemoveDay(days[1..], day)
  }

  /**
   * The day list after clicking `day`: a selected day is removed, an unselected
   * one is appended and the list re-sorted. The argument-less `sort()` compares
   * the days as strings, which for the single digits 0 to 6 is numeric order.
   */
  function ToggleDay(days: seq<Weekday>, day: Weekday): (r: seq<Weekday>)
    // the clicked day flips
    ensures day in r <==> day !in days
    // every other day keeps its membership
    ensures forall d :: d != day ==> (d in r <==> d in days)
    // removal deletes every occurrence and keeps the order of the rest
    ensures day in days ==> IsSubsequence(r, days)
    // adding keeps every day once more and sorts
    ensures day !in days ==> multiset(r) == multiset(days) + multiset{day} && SortedDays(r)
  {
    if day in days then RemoveDay(days, day)
    else
      var r := SortBy(days + [day], DayKey);
      MultisetMembers(r, days + [day]);
      r
  }

  /** Clicking the same day twice gives back the same set of days. */
  lemma ToggleTwiceRestoresDays(days: seq<Weekday>, day: Weekday)
    ensures forall d :: d in ToggleDay(ToggleDay(days, day), day) <==> d in days
  {
  }

  lemma {:induction false} RemoveAbsentDay(days: seq<Weekday>, day: Weekday)
    requires day !in days
    ensures RemoveDay(days, day) == days
  {
    if days != [] {
      RemoveAbsentDay(days[1..], day);
      assert days == [days[0]] + days[1..];
    }
  }

  lemma {:induction false} RemoveInsertedDay(days: seq<Weekday>, day: Weekday)
    ensures RemoveDay(Insert(day, days, DayKey), day) == RemoveDay(days, day)
  {
    if days != [] && DayKey(days[0]) <= DayKey(day) {
      RemoveInsertedDay(days[1..], day);
    }
  }

  /** The tail of an ascending list is ascending and above its head. */
  lemma StrictTail(days: seq<Weekday>)
    requires StrictlySortedDays(days) && days != []
    ensures StrictlySortedDays(days[1..])
    ensures days[0] !in days[1..]
    ensures forall d :: d in days[1..] ==> days[0] < d
  {
    forall a, b | 0 <= a < b < |days[1..]| ensures days[1..][a] < days[1..][b] {
      assert days[1..][a] == days[a + 1] && days[1..][b] == days[b + 1];
    }
    forall d | d in days[1..] ensures days[0] < d {
      var k :| 0 <= k < |days[1..]| && days[1..][k] == d;
      assert days[k + 1] == d;
    }
  }

  lemma {:induction false} InsertRemovedDay(days: seq<Weekday>, day: Weekday)
    requires StrictlySortedDays(days) && day in days
    ensures Insert(day, RemoveDay(days, day), DayKey) == days
  {
    StrictTail(days);
    var tail := days[1..];
    assert days == [days[0]] + tail;
    if days[0] == day {
      RemoveAbsentDay(tail, day);
      assert RemoveDay(days, day) == tail;
      if tail != [] {
        assert tail[0] in tail;
        assert DayKey(day) < DayKey(tail[0]);
      }
    } else {
      var rest := RemoveDay(tail, day);
      InsertRemovedDay(tail, day);
      var removed := [days[0]] + rest;
      assert RemoveDay(days, day) == removed;
      assert removed[0] == days[0] && removed[1..] == rest;
      assert DayKey(days[0]) < DayKey(day);
    }
  }

  /** On a strictly ascending day list two clicks on the same day restore the very same list. */
  lemma ToggleTwiceRestoresList(days: seq<Weekday>, day: Weekday)
    requires StrictlySortedDays(days)
    ensures ToggleDay(ToggleDay(days, day), day) == days
  {
    assert SortedDays(days);
    if day in days {
      var removed := RemoveDay(days, day);
      assert SortedDays(removed) by {
        forall i, j | 0 <= i < j < |removed| ensures removed[i] <= removed[j] {
          RemovedStaysSorted(days, day, i, j);
        }
      }
      SortByAppend(removed, day, DayKey);
      SortBySorted(removed, DayKey);
      InsertRemovedDay(days, day);
    } else {
      SortByAppend(days, day, DayKey);
      SortBySorted(days, DayKey);
      RemoveInsertedDay(days, day);
      RemoveAbsentDay(days, day);
    }
  }

  /** Removing a day from an ascending list keeps it ascending. */
  lemma {:induction false} RemovedStaysSorted(days: seq<Weekday>, day: Weekday, i: int, j: int)
    requires StrictlySortedDays(days)
    requires 0 <= i < j < |RemoveDay(days, day)|
    ensures RemoveDay(days, day)[i] < RemoveDay(days, day)[j]
    decreases |days|
  {
    var r := RemoveDay(days, day);
    var rest := RemoveDay(days[1..], day);
    StrictTail(days);
    if days[0] == day {
      RemovedStaysSorted(days[1..], day, i, j);
    } else if i == 0 {
      assert r[j] == rest[j - 1];
      assert rest[j - 1] in days[1..];
    } else {
      RemovedStaysSorted(days[1..], day, i - 1, j - 1);
    }
  }

  // ---------------------------------------------------------------------------
  // Form edits and saving

  /** The schedule field `edit` names holds the value `edit` carries. */
  predicate Applied(s: StoreSchedule, edit: ScheduleEdit) {
    match edit
    case SetEnabled(b) => s.enabled == b
    case SetOpenTime(t) => s.openTime == t
    case SetCloseTime(t) => s.closeTime == t
    case SetDaysOfWeek(days) => s.daysOfWeek == days
  }

  /** `s` and `t` agree on every field other than the one `edit` names. */
  predicate SameElsewhere(s: StoreSchedule, t: StoreSchedule, edit: ScheduleEdit) {
    && (edit.SetEnabled? || s.enabled == t.enabled)
    && (edit.SetOpenTime? || s.openTime == t.openTime)
    && (edit.SetCloseTime? || s.closeTime == t.closeTime)
    && (edit.SetDaysOfWeek? || s.daysOfWeek == t.daysOfWeek)
  }

  function HandleScheduleChange(form: ScheduleForm, edit: ScheduleEdit): (r: ScheduleForm)
    ensures Applied(r.schedule, edit)
    ensures SameElsewhere(r.schedule, form.schedule, edit)
    ensures r.hasChanges
  {
    var s := form.schedule;
    var schedule := match edit
      case SetEnabled(b) => s.(enabled := b)
      case SetOpenTime(t) => s.(openTime := t)
      case SetCloseTime(t) => s.(closeTime := t)
      case SetDaysOfWeek(days) => s.(daysOfWeek := days);
    ScheduleForm(schedule, true)
  }

  /** Clicking a day in the picker. */
  function HandleDayToggle(form: ScheduleForm, day: Weekday): (r: ScheduleForm)
    ensures r.schedule.daysOfWeek == ToggleDay(form.schedule.daysOfWeek, day)
    ensures SameElsewhere(r.schedule, form.schedule, SetDaysOfWeek([]))
    ensures r.hasChanges
  {
    HandleScheduleChange(form, SetDaysOfWeek(ToggleDay(form.schedule.daysOfWeek, day)))
  }

  /** Saving: the schedule handed to the store, and the form with its flag cleared. */
  function HandleSave(form: ScheduleForm): (r: (StoreSchedule, ScheduleForm))
    ensures r.0 == form.schedule && r.1.schedule == form.schedule
    ensures !r.1.hasChanges
  {
    (form.schedule, ScheduleForm(form.schedule, false))
  }

  /** An edit followed by a save stores the edited schedule and leaves nothing unsaved. */
  lemma EditThenSave(form: ScheduleForm, edit: ScheduleEdit)
    ensures var (saved, after) := HandleSave(HandleScheduleChange(form, edit));
      && Applied(saved, edit) && SameElsewhere(saved, form.schedule, edit)
      && !after.hasChanges && after.schedule == saved
  {
  }

  // ---------------------------------------------------------------------------
  // History

  function FormatChangeType(changeType: string): (r: ChangeTypeLabel)
    ensures r == ManualLabel <==> changeType == "manual"
  {
    if changeType == "manual" then ManualLabel else AutomaticLabel
  }

  /** The rows the history table shows: the first twenty log entries. */
  function VisibleHistory(logs: seq<StatusLog>): (r: seq<StatusLog>)
    ensures |r| <= HistoryRows
    ensures |logs| <= HistoryRows ==> r == logs
    ensures |logs| > HistoryRows ==> r == logs[..HistoryRows]
  {
    Take(logs, HistoryRows)
  }
}
