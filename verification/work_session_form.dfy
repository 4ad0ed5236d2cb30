/**
 * The timer fields of the work-session form: `start`, `end`, `duration` (in
 * minutes), `is_running` and the read-only `time` text. Editing `start` or
 * `duration` reconciles from the duration, editing `end` reconciles from the
 * end, and flipping the `is_running` toggle either clears the timer or
 * finishes it at the current minute.
 */
module WorkSessionForm {
  import opened Options
  import opened Clock

  /** The "Session time" text, kept as the minutes it formats. */
  datatype TimeText = Blank | Formatted(minutes: int)

  /** The timer fields of the form, as one value. */
  datatype Timers = Timers(start: int, end: Option<int>, duration: int, isRunning: bool, time: TimeText)

  /** Neither an end nor a non-zero duration is entered: reconciling does nothing. */
  predicate IsIdle(s: Timers)
  {
    s.end.None? && s.duration == 0
  }

  /**
   * The form after reconciling. `fromDuration` is true when `start` or
   * `duration` was edited and false when `end` was. An empty `end` on the end
   * path parses as `now`.
   */
  function Reconciled(fromDuration: bool, now: int, s: Timers): (r: Timers)
    ensures IsIdle(s) ==> r == s
    ensures !IsIdle(s) ==> r.start == s.start && r.end.Some?
    ensures !IsIdle(s) ==> r.isRunning == (r.duration == 0) && r.time == Formatted(r.duration)
    ensures !IsIdle(s) && fromDuration ==> r.end == Some(s.start + SecondsPerMinute * s.duration)
    ensures !IsIdle(s) && fromDuration && s.duration >= 0 ==> r.duration == s.duration
    ensures !IsIdle(s) && !fromDuration ==> r.end == Some(s.end.GetOr(now))
    ensures !IsIdle(s) && !fromDuration && s.start <= r.end.value ==>
              0 <= r.duration &&
              SecondsPerMinute * r.duration <= r.end.value - s.start < SecondsPerMinute * (r.duration + 1)
  {
    if IsIdle(s) then s
    else
      var end := if fromDuration then s.start + SecondsPerMinute * s.duration else s.end.GetOr(now);
      var duration := MinutesBetween(s.start, end);
      s.(end := Some(end), duration := duration, time := Formatted(duration), isRunning := duration == 0)
  }

  /**
   * The form after the `is_running` toggle was switched to `running`: the
   * toggle's own field takes the new state, then switching to running clears
   * the timer and switching to finished ends it at the current minute and
   * reconciles from the end.
   */
  function Toggled(running: bool, now: int, s: Timers): (r: Timers)
    ensures r.start == s.start
    ensures running ==> r.end.None? && r.duration == 0 && r.isRunning && r.time == s.time
    ensures !running ==> r.end == Some(MinuteStart(now))
    ensures !running ==> r.isRunning == (r.duration == 0) && r.time == Formatted(r.duration)
    ensures !running && s.start <= MinuteStart(now) ==>
              SecondsPerMinute * r.duration <= MinuteStart(now) - s.start < SecondsPerMinute * (r.duration + 1)
  {
    if running then s.(isRunning := true, end := None, duration := 0)
    else Reconciled(false, now, s.(isRunning := false, end := Some(MinuteStart(now))))
  }

  /** Reconciling twice on the same path is the same as reconciling once. */
  lemma ReconcileIdempotent(fromDuration: bool, now: int, s: Timers)
    ensures Reconciled(fromDuration, now, Reconciled(fromDuration, now, s)) == Reconciled(fromDuration, now, s)
  {
  }

  /** After the duration path `end` is exactly `duration` minutes after `start`, so the end path changes nothing. */
  lemma EndPathAfterDurationPath(now: int, now': int, s: Timers)
    requires s.duration >= 0
    ensures var r := Reconciled(true, now, s);
            r.end.Some? ==> r.end.value == r.start + SecondsPerMinute * r.duration
    ensures Reconciled(false, now', Reconciled(true, now, s)) == Reconciled(true, now, s)
  {
  }

  /** Switching to running leaves an idle timer that no later reconcile changes. */
  lemma RunningIsIdle(now: int, now': int, fromDuration: bool, s: Timers)
    ensures IsIdle(Toggled(true, now, s))
    ensures Reconciled(fromDuration, now', Toggled(true, now, s)) == Toggled(true, now, s)
  {
  }

  /**
   * Finishing within the minute the session started gives a zero duration,
   * so the toggle that was switched to finished flips back to running.
   */
  lemma FinishInStartMinuteStaysRunning(now: int, s: Timers)
    requires now / SecondsPerMinute == s.start / SecondsPerMinute
    ensures Toggled(false, now, s).duration == 0
    ensures Toggled(false, now, s).isRunning
  {
  }

  /** Finishing a session that was just switched back to running is finishing it directly. */
  lemma RestartThenFinish(now: int, now': int, s: Timers)
    ensures Toggled(false, now, Toggled(true, now', s)) == Toggled(false, now, s)
  {
  }

  /** The form's timer fields, updated in place through the form's setter. */
  class SessionForm {
    var start: int
    var end: Option<int>
    var duration: int
    var isRunning: bool
    var time: TimeText

    function State(): Timers
      reads this
    {
      Timers(start, end, duration, isRunning, time)
    }

    /** A new form: started now, no end, zero duration, running. */
    constructor (now: int)
      ensures State() == Timers(now, None, 0, true, Blank)
    {
      start, end, duration, isRunning, time := now, None, 0, true, Blank;
    }

    /** `formSetTimers`: recompute `end`, `duration`, `time` and `is_running` after one field was edited. */
    method SetTimers(fromDuration: bool, now: int)
      modifies this
      ensures State() == Reconciled(fromDuration, now, old(State()))
    {
      if end.None? && duration == 0 {
        return;
      }
      var newEnd := if fromDuration then start + SecondsPerMinute * duration else end.GetOr(now);
      end := Some(newEnd);
      duration := MinutesBetween(start, newEnd);
      time := Formatted(duration);
      isRunning := duration == 0;
    }

    /** The `is_running` toggle was switched to `state`. */
    method ToggleRunning(state: bool, now: int)
      modifies this
      ensures State() == Toggled(state, now, old(State()))
    {
      isRunning := state;
      if state {
        end := None;
        duration := 0;
      } else {
        end := Some(MinuteStart(now));
        SetTimers(false, now);
      }
    }
  }
}
