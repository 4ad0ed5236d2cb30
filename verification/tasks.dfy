/**
 * Task date rules: the stamper that fills `actual_start` / `actual_end` when a
 * save changes the task's status, and `postpone`, which moves one date field
 * forward. Dates are day numbers; the status table is a map from status id to
 * phase; the two company settings are booleans.
 */
module Tasks {
  import opened Options

  /** The phase of a status. */
  datatype Phase = Todo | InProgress | Closed

  /** The two company settings the stamper reads. */
  datatype Settings = Settings(fillActualStartWhenInProgress: bool, fillActualEndWhenClosed: bool)

  /** The date columns of a task. */
  datatype DateField = PlannedStart | PlannedEnd | ActualStart | ActualEnd | DueDate

  /** A postponement interval: the literal 'today', or a length in days (negative moves back). */
  datatype Interval = Today | Days(n: int)

  datatype TaskDates = TaskDates(
    plannedStart: Option<int>,
    plannedEnd: Option<int>,
    actualStart: Option<int>,
    actualEnd: Option<int>,
    dueDate: Option<int>)

  /**
   * The fields of a task the rules read or write. `original` is the status id
   * last persisted, or None for a task never saved.
   */
  datatype TaskState = TaskState(statusId: nat, original: Option<nat>, dates: TaskDates)

  function Get(d: TaskDates, f: DateField): (v: Option<int>)
  {
    match f
    case PlannedStart => d.plannedStart
    case PlannedEnd => d.plannedEnd
    case ActualStart => d.actualStart
    case ActualEnd => d.actualEnd
    case DueDate => d.dueDate
  }

  /** `d` with field `f` set to `v`. */
  function With(d: TaskDates, f: DateField, v: Option<int>): (r: TaskDates)
    ensures Get(r, f) == v
    ensures forall g :: g != f ==> Get(r, g) == Get(d, g)
  {
    match f
    case PlannedStart => d.(plannedStart := v)
    case PlannedEnd => d.(plannedEnd := v)
    case ActualStart => d.(actualStart := v)
    case ActualEnd => d.(actualEnd := v)
    case DueDate => d.(dueDate := v)
  }

  /** `Status::find($id)->phase`, or None when no such status exists. */
  function Find(statuses: map<nat, Phase>, id: nat): (p: Option<Phase>)
    ensures p.Some? <==> id in statuses
    ensures p.Some? ==> p.value == statuses[id]
  {
    if id in statuses then Some(statuses[id]) else None
  }

  /** `$day->add($interval)` for an interval of days. */
  function Add(day: int, i: Interval): (r: int)
    requires i.Days?
    ensures i.n >= 0 ==> r >= day
    ensures i.n > 0 ==> r > day
  {
    day + i.n
  }

  /** Adding an interval is strictly increasing in the date it is added to. */
  lemma AddIncreasing(a: int, b: int, i: Interval)
    requires i.Days? && a < b
    ensures Add(a, i) < Add(b, i)
  {
  }

  /** The dates after the stamper ran for a status of phase `phase`. */
  function Stamped(d: TaskDates, phase: Option<Phase>, settings: Settings, today: int): (r: TaskDates)
    ensures r.plannedStart == d.plannedStart && r.plannedEnd == d.plannedEnd && r.dueDate == d.dueDate
    ensures r.actualStart != d.actualStart <==>
              phase == Some(InProgress) && settings.fillActualStartWhenInProgress && d.actualStart.None?
    ensures r.actualEnd != d.actualEnd <==>
              phase == Some(Closed) && settings.fillActualEndWhenClosed && d.actualEnd.None?
    ensures r.actualStart != d.actualStart ==> r.actualStart == Some(today)
    ensures r.actualEnd != d.actualEnd ==> r.actualEnd == Some(today)
    ensures r.actualStart == d.actualStart || r.actualEnd == d.actualEnd
  {
    match phase
    case Some(InProgress) =>
      if settings.fillActualStartWhenInProgress then d.(actualStart := Some(d.actualStart.GetOr(today))) else d
    case Some(Closed) =>
      if settings.fillActualEndWhenClosed then d.(actualEnd := Some(d.actualEnd.GetOr(today))) else d
    case _ => d
  }

  /** The stamper never overwrites a date that is already set. */
  lemma StampNeverOverwrites(d: TaskDates, phase: Option<Phase>, settings: Settings, today: int)
    ensures d.actualStart.Some? ==> Stamped(d, phase, settings, today).actualStart == d.actualStart
    ensures d.actualEnd.Some? ==> Stamped(d, phase, settings, today).actualEnd == d.actualEnd
  {
  }

  /** A missing status, a to-do status or a setting that is off leaves the dates alone. */
  lemma StampQuiet(d: TaskDates, phase: Option<Phase>, settings: Settings, today: int)
    requires || phase.None?
             || phase == Some(Todo)
             || (phase == Some(InProgress) && !settings.fillActualStartWhenInProgress)
             || (phase == Some(Closed) && !settings.fillActualEndWhenClosed)
    ensures Stamped(d, phase, settings, today) == d
  {
  }

  /** Stamping twice is stamping once, even on a later day. */
  lemma StampIdempotent(d: TaskDates, phase: Option<Phase>, settings: Settings, today: int, later: int)
    ensures Stamped(Stamped(d, phase, settings, today), phase, settings, later) == Stamped(d, phase, settings, today)
  {
  }

  /** `isDirty('status_id')`: the status differs from the one last persisted, or the task was never saved. */
  predicate StatusDirty(t: TaskState)
  {
    t.original != Some(t.statusId)
  }

  /** The task after `save()`: the saving hook stamps only when the status changed, then the status is persisted. */
  function Saved(t: TaskState, statuses: map<nat, Phase>, settings: Settings, today: int): (r: TaskState)
    ensures r.statusId == t.statusId && r.original == Some(t.statusId)
    ensures !StatusDirty(t) ==> r.dates == t.dates
    ensures StatusDirty(t) ==> r.dates == Stamped(t.dates, Find(statuses, t.statusId), settings, today)
  {
    var dates := if StatusDirty(t) then Stamped(t.dates, Find(statuses, t.statusId), settings, today) else t.dates;
    TaskState(t.statusId, Some(t.statusId), dates)
  }

  /** A second save with no status change in between changes nothing. */
  lemma SaveTwice(t: TaskState, statuses: map<nat, Phase>, settings: Settings, today: int, later: int)
    ensures Saved(Saved(t, statuses, settings, today), statuses, settings, later) == Saved(t, statuses, settings, today)
  {
  }

  /** The dates after `postpone(field, interval, fromNow)` on day `today`, before the save. */
  function Postponed(d: TaskDates, field: DateField, interval: Interval, fromNow: bool, today: int): (r: TaskDates)
    ensures Get(d, field).None? ==> r == d
    ensures forall g :: g != field ==> Get(r, g) == Get(d, g)
    ensures Get(d, field).Some? ==> Get(r, field).Some?
    ensures Get(d, field).Some? && interval == Today ==> Get(r, field) == Some(today)
    ensures Get(d, field).Some? && interval.Days? && field in {PlannedEnd, DueDate} ==>
              && (Get(d, field).value <= today ==> Get(r, field) == Some(Add(today, interval)))
              && (Get(d, field).value > today ==> Get(r, field) == Some(Add(Get(d, field).value, interval)))
    ensures Get(d, field).Some? && interval.Days? && field !in {PlannedEnd, DueDate} ==>
              Get(r, field) == Some(Add(if fromNow then today else Get(d, field).value, interval))
  {
    match Get(d, field)
    case None => d
    case Some(was) =>
      if interval == Today then With(d, field, Some(today))
      else if field == PlannedEnd || field == DueDate then
        With(d, field, Some(if was <= today then Add(today, interval) else Add(was, interval)))
      else
        With(d, field, Some(if fromNow then Add(today, interval) else Add(was, interval)))
  }

  /** A postponed planned end or due date lands no earlier than today plus the interval. */
  lemma PostponeCatchesUp(d: TaskDates, field: DateField, interval: Interval, fromNow: bool, today: int)
    requires field == PlannedEnd || field == DueDate
    requires Get(d, field).Some? && interval.Days?
    ensures Get(Postponed(d, field, interval, fromNow, today), field).value >= Add(today, interval)
    ensures interval.n > 0 ==> Get(Postponed(d, field, interval, fromNow, today), field).value > today
  {
  }

  /** A task record. */
  class Task {
    var statusId: nat
    var originalStatusId: Option<nat>
    var plannedStart: Option<int>
    var plannedEnd: Option<int>
    var actualStart: Option<int>
    var actualEnd: Option<int>
    var dueDate: Option<int>

    function Dates(): TaskDates
      reads this
    {
      TaskDates(plannedStart, plannedEnd, actualStart, actualEnd, dueDate)
    }

    function State(): TaskState
      reads this
    {
      TaskState(statusId, originalStatusId, Dates())
    }

    constructor (t: TaskState)
      ensures State() == t
    {
      statusId, originalStatusId := t.statusId, t.original;
      plannedStart, plannedEnd := t.dates.plannedStart, t.dates.plannedEnd;
      actualStart, actualEnd, dueDate := t.dates.actualStart, t.dates.actualEnd, t.dates.dueDate;
    }

    /** `isDirty('status_id')` on this task. */
    predicate StatusIsDirty()
      reads this
    {
      StatusDirty(State())
    }

    /** `setStartEndDates`: fill the actual dates that the new status's phase and the settings ask for. */
    method SetStartEndDates(statuses: map<nat, Phase>, settings: Settings, today: int)
      modifies this
      ensures State() == old(State()).(dates := Stamped(old(Dates()), Find(statuses, statusId), settings, today))
    {
      var status := Find(statuses, statusId);
      if status.Some? {
        if status.value == InProgress && settings.fillActualStartWhenInProgress {
          actualStart := Some(actualStart.GetOr(today));
        }
        if status.value == Closed && settings.fillActualEndWhenClosed {
          actualEnd := Some(actualEnd.GetOr(today));
        }
      }
    }

    /** `save()`: run the saving hook, then persist. */
    method Save(statuses: map<nat, Phase>, settings: Settings, today: int)
      modifies this
      ensures State() == Saved(old(State()), statuses, settings, today)
    {
      if StatusIsDirty() {
        SetStartEndDates(statuses, settings, today);
      }
      originalStatusId := Some(statusId);
    }

    /** Set one date field. */
    method SetDate(field: DateField, v: Option<int>)
      modifies this
      ensures State() == old(State()).(dates := With(old(Dates()), field, v))
    {
      match field
      case PlannedStart => plannedStart := v;
      case PlannedEnd => plannedEnd := v;
      case ActualStart => actualStart := v;
      case ActualEnd => actualEnd := v;
      case DueDate => dueDate := v;
    }

    /** `postpone`: move a set date field forward and save; an empty field is left alone and not saved. */
    method Postpone(field: DateField, interval: Interval, today: int,
                    statuses: map<nat, Phase>, settings: Settings, fromNow: bool := true)
      modifies this
      ensures Get(old(Dates()), field).None? ==> State() == old(State())
      ensures Get(old(Dates()), field).Some? ==>
                State() == Saved(old(State()).(dates := Postponed(old(Dates()), field, interval, fromNow, today)),
                                 statuses, settings, today)
    {
      var current := Get(Dates(), field);
      if current.Some? {
        if interval == Today {
          SetDate(field, Some(today));
        } else {
          var next;
          if field == PlannedEnd || field == DueDate {
            if current.value <= today {
              next := Add(today, interval);
            } else {
              next := Add(current.value, interval);
            }
          } else {
            next := if fromNow then Add(today, interval) else Add(current.value, interval);
          }
          SetDate(field, Some(next));
        }
        Save(statuses, settings, today);
      }
    }
  }
}
