/**
 * Cloning stored work sessions: the copy keeps every field of the original
 * and moves `start` and `end` to today, each at its own time of day. The bulk
 * variant clones each selected record on its own.
 */
module WorkSessionClone {
  import opened Options
  import opened Clock

  /** The fields of a session that the timer logic never touches. */
  datatype Details = Details(
    title: string,
    description: string,
    rate: int,
    value: int,
    currency: string,
    clientId: Option<nat>,
    projectId: Option<nat>,
    taskId: Option<nat>)

  /** The persisted fields of one work session. */
  datatype SessionRecord = SessionRecord(start: int, end: Option<int>, duration: int, isRunning: bool, details: Details)

  /** A work-session record. */
  class WorkSession {
    var start: int
    var end: Option<int>
    var duration: int
    var isRunning: bool
    var details: Details

    function Snapshot(): SessionRecord
      reads this
    {
      SessionRecord(start, end, duration, isRunning, details)
    }

    constructor (r: SessionRecord)
      ensures Snapshot() == r
    {
      start, end, duration, isRunning, details := r.start, r.end, r.duration, r.isRunning, r.details;
    }

    /** `replicate()`: a new record with the same field values. */
    method Replicate() returns (copy: WorkSession)
      ensures fresh(copy) && copy.Snapshot() == Snapshot()
    {
      copy := new WorkSession(Snapshot());
    }
  }

  /** The clone of `r` made on day `today`. */
  function Cloned(r: SessionRecord, today: int): (c: SessionRecord)
    requires r.end.Some?
    ensures Day(c.start) == today && TimeOfDay(c.start) == TimeOfDay(r.start)
    ensures c.end.Some? && Day(c.end.value) == today && TimeOfDay(c.end.value) == TimeOfDay(r.end.value)
    ensures c.duration == r.duration && c.isRunning == r.isRunning && c.details == r.details
  {
    r.(start := AtDay(today, r.start), end := Some(AtDay(today, r.end.value)))
  }

  /**
   * The clones of `rs` made on day `today`, one per record and in order, up
   * to the first record without an end: cloning that one fails, and the
   * records after it are not cloned.
   */
  function ClonedAll(rs: seq<SessionRecord>, today: int): (cs: seq<SessionRecord>)
    ensures |cs| <= |rs|
    ensures forall i :: 0 <= i < |cs| ==> rs[i].end.Some? && cs[i] == Cloned(rs[i], today)
    ensures |cs| < |rs| ==> rs[|cs|].end.None?
  {
    if rs == [] || rs[0].end.None? then [] else [Cloned(rs[0], today)] + ClonedAll(rs[1..], today)
  }

  /** Cloning a selection in two parts, the first all finished, gives the clones of the whole selection. */
  lemma {:induction false} ClonedAllAppend(a: seq<SessionRecord>, b: seq<SessionRecord>, today: int)
    requires forall i :: 0 <= i < |a| ==> a[i].end.Some?
    ensures ClonedAll(a + b, today) == ClonedAll(a, today) + ClonedAll(b, today)
  {
    if a == [] {
      assert a + b == b;
    } else {
      assert (a + b)[0] == a[0];
      assert (a + b)[1..] == a[1..] + b;
      ClonedAllAppend(a[1..], b, today);
    }
  }

  /** A selection with a running session is cloned no further than that session. */
  lemma {:induction false} ClonedAllStopsAtRunning(a: seq<SessionRecord>, b: seq<SessionRecord>, today: int)
    requires exists i :: 0 <= i < |a| && a[i].end.None?
    ensures ClonedAll(a + b, today) == ClonedAll(a, today)
  {
    var i :| 0 <= i < |a| && a[i].end.None?;
    assert (a + b)[0] == a[0];
    if a[0].end.Some? {
      assert (a + b)[1..] == a[1..] + b;
      assert a[1..][i - 1] == a[i];
      ClonedAllStopsAtRunning(a[1..], b, today);
    }
  }

  /** The clones end exactly at the first record without an end. */
  lemma ClonedAllLength(rs: seq<SessionRecord>, n: nat, today: int)
    requires n <= |rs|
    requires forall k :: 0 <= k < n ==> rs[k].end.Some?
    requires n < |rs| ==> rs[n].end.None?
    ensures |ClonedAll(rs, today)| == n
  {
  }

  /** A session that starts and ends on one day keeps its length when cloned. */
  lemma CloneKeepsSameDayLength(r: SessionRecord, today: int)
    requires r.end.Some? && Day(r.start) == Day(r.end.value)
    ensures Cloned(r, today).end.value - Cloned(r, today).start == r.end.value - r.start
  {
  }

  /** A session that ran past midnight is cloned with its end before its start. */
  lemma CloneAcrossMidnightEndsBeforeStart(r: SessionRecord, today: int)
    requires r.end.Some? && TimeOfDay(r.end.value) < TimeOfDay(r.start)
    ensures Cloned(r, today).end.value < Cloned(r, today).start
  {
  }

  /**
   * `clone`: replicate the record, move its start and end to today and save
   * the copy. Reading the time of an empty end throws, so a running session
   * gives no copy.
   */
  method Clone(record: WorkSession, today: int) returns (copy: Option<WorkSession>)
    ensures copy.None? <==> record.end.None?
    ensures copy.Some? ==> fresh(copy.value) && copy.value.Snapshot() == Cloned(record.Snapshot(), today)
  {
    if record.end.None? {
      return None;
    }
    var c := record.Replicate();
    c.start := AtDay(today, record.start);
    c.end := Some(AtDay(today, record.end.value));
    copy := Some(c);
  }

  /** The persisted fields of each record of `ws`, in order. */
  function Snapshots(ws: seq<WorkSession>): (rs: seq<SessionRecord>)
    reads set w | w in ws
    ensures |rs| == |ws| && forall i :: 0 <= i < |ws| ==> rs[i] == ws[i].Snapshot()
  {
    if ws == [] then [] else [ws[0].Snapshot()] + Snapshots(ws[1..])
  }

  /**
   * `cloneCollection`: clone the selected records one after another. A clone
   * that throws ends the batch with `failed` set; the clones made before it
   * stay saved.
   */
  method CloneCollection(records: seq<WorkSession>, today: int) returns (clones: seq<WorkSession>, failed: bool)
    ensures forall i :: 0 <= i < |clones| ==> fresh(clones[i])
    ensures Snapshots(clones) == ClonedAll(Snapshots(records), today)
    ensures failed <==> |clones| < |records|
  {
    clones, failed := [], false;
    var i := 0;
    while i < |records|
      invariant 0 <= i <= |records|
      invariant |clones| == i
      invariant forall k :: 0 <= k < i ==> records[k].end.Some?
      invariant forall k :: 0 <= k < i ==> fresh(clones[k])
      invariant forall k :: 0 <= k < i ==> clones[k].Snapshot() == Cloned(records[k].Snapshot(), today)
    {
      var copy := Clone(records[i], today);
      if copy.None? {
        failed := true;
        break;
      }
      clones := clones + [copy.value];
      i := i + 1;
    }
    ghost var rs := Snapshots(records);
    ClonedAllLength(rs, i, today);
    assert Snapshots(clones) == ClonedAll(rs, today);
  }
}
