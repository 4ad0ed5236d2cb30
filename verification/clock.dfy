/**
 * Time arithmetic shared by the work-session operations. A timestamp is an
 * integer number of seconds and a date an integer day number; timezones are
 * not modelled, so a day is always 86400 seconds long.
 */
module Clock {

  const SecondsPerMinute: int := 60
  const SecondsPerDay: int := 86400

  /**
   * `(int) $start->diffInMinutes($end)`: the signed number of whole minutes
   * from `start` to `end`, truncated toward zero.
   */
  function MinutesBetween(start: int, end: int): (m: int)
    ensures start <= end ==> 0 <= m && SecondsPerMinute * m <= end - start < SecondsPerMinute * (m + 1)
    ensures end <= start ==> m <= 0 && SecondsPerMinute * -m <= start - end < SecondsPerMinute * (-m + 1)
  {
    if start <= end then (end - start) / SecondsPerMinute
    else -((start - end) / SecondsPerMinute)
  }

  /** Adding whole minutes to a timestamp and measuring them again gives them back. */
  lemma MinutesBetweenWhole(start: int, minutes: int)
    ensures MinutesBetween(start, start + SecondsPerMinute * minutes) == minutes
  {
  }

  /** A timestamp formatted as 'Y-m-d H:i' and read back: its seconds dropped. */
  function MinuteStart(t: int): (r: int)
    ensures r <= t < r + SecondsPerMinute
    ensures r % SecondsPerMinute == 0
  {
    t - t % SecondsPerMinute
  }

  /** The day number of a timestamp. */
  function Day(t: int): (d: int)
  {
    t / SecondsPerDay
  }

  /** The seconds since midnight of a timestamp (hour, minute and second together). */
  function TimeOfDay(t: int): (s: int)
    ensures 0 <= s < SecondsPerDay
  {
    t % SecondsPerDay
  }

  /** `$today->setTime($t->hour, $t->minute, $t->second)`: day `today` at the time of day of `t`. */
  function AtDay(today: int, t: int): (r: int)
    ensures Day(r) == today
    ensures TimeOfDay(r) == TimeOfDay(t)
  {
    today * SecondsPerDay + TimeOfDay(t)
  }

  /** Re-anchoring two instants of one day to another day keeps the time between them. */
  lemma AtDayKeepsElapsed(today: int, a: int, b: int)
    requires Day(a) == Day(b)
    ensures AtDay(today, b) - AtDay(today, a) == b - a
  {
  }
}
