/**
 * The scheduler's next-run arithmetic: after each analysis it waits until
 * the next quarter-hour boundary. The wall clock is an input.
 */
module Scheduler {

  /** Runs are aligned to this many minutes. */
  const IntervalMinutes: int := 15
  /** How long the error handler waits before re-running. */
  const ErrorRetrySeconds: real := 60.0

  const MicrosPerSecond: int := 1_000_000
  const MicrosPerInterval: int := 15 * 60 * 1_000_000
  const MicrosPerDay: int := 24 * 60 * 60 * 1_000_000

  /** A time of day, as `datetime` holds it. */
  datatype Clock = Clock(hour: int, minute: int, second: int, microsecond: int)

  predicate ValidClock(c: Clock) {
    && 0 <= c.hour < 24
    && 0 <= c.minute < 60
    && 0 <= c.second < 60
    && 0 <= c.microsecond < MicrosPerSecond
  }

  /** Microseconds since midnight. */
  function MicrosOfDay(c: Clock): (t: int)
    ensures ValidClock(c) ==> 0 <= t < MicrosPerDay
  {
    ((c.hour * 60 + c.minute) * 60 + c.second) * MicrosPerSecond + c.microsecond
  }

  /** `((minute // 15) + 1) * 15`: the next multiple of 15 strictly after `minute`. */
  function NextMinute(minute: int): (next: int)
    requires 0 <= minute < 60
    ensures next % IntervalMinutes == 0
    ensures minute < next <= 60
    ensures next - minute <= IntervalMinutes
  {
    ((minute / IntervalMinutes) + 1) * IntervalMinutes
  }

  /** The outcome of computing the next run: a time of day, or the error `replace(hour=24)` raises. */
  datatype NextRunOutcome = At(clock: Clock) | HourOutOfRange

  /**
   * The next run as `run_scheduler` computes it: the next quarter hour of the
   * same hour, or minute 0 of the next hour; in the last quarter hour of the
   * day the hour would become 24, which `datetime.replace` rejects.
   */
  function NextRunAsWritten(now: Clock): (r: NextRunOutcome)
    requires ValidClock(now)
    ensures r.HourOutOfRange? <==> now.hour == 23 && now.minute >= 45
    ensures r.At? ==> ValidClock(r.clock) && r.clock.second == 0 && r.clock.microsecond == 0
    ensures r.At? ==> r.clock.minute % IntervalMinutes == 0
  {
    var next := NextMinute(now.minute);
    if next >= 60 then
      if now.hour + 1 < 24 then At(Clock(now.hour + 1, 0, 0, 0)) else HourOutOfRange
    else
      At(Clock(now.hour, next, 0, 0))
  }

  /** `(next_run - current_time).total_seconds()` for two times of the same day. */
  function SecondsBetween(now: Clock, next: Clock): real {
    (MicrosOfDay(next) - MicrosOfDay(now)) as real / MicrosPerSecond as real
  }

  lemma ScaleToSeconds(gap: int)
    requires 0 < gap <= MicrosPerInterval
    ensures 0.0 < gap as real / MicrosPerSecond as real <= 900.0
  {
  }

  /** Whenever the next run is computed, it lies after the current time by at most 15 minutes. */
  lemma GapWithinInterval(now: Clock)
    requires ValidClock(now)
    requires NextRunAsWritten(now).At?
    ensures 0 < MicrosOfDay(NextRunAsWritten(now).clock) - MicrosOfDay(now) <= MicrosPerInterval
    ensures 0.0 < SecondsBetween(now, NextRunAsWritten(now).clock) <= 900.0
  {
    ScaleToSeconds(MicrosOfDay(NextRunAsWritten(now).clock) - MicrosOfDay(now));
  }

  /**
   * How long the loop sleeps after a run that ended at `now`:
   * `max(sleep_seconds, 0)`, or the error handler's 60 seconds when the
   * next run could not be computed.
   */
  function DelayAsWritten(now: Clock): (d: real)
    requires ValidClock(now)
    ensures d >= 0.0
    ensures NextRunAsWritten(now).HourOutOfRange? ==> d == ErrorRetrySeconds
    ensures NextRunAsWritten(now).At? ==> 0.0 < d <= 900.0
  {
    match NextRunAsWritten(now)
    case At(next) =>
      GapWithinInterval(now);
      var s := SecondsBetween(now, next);
      if s >= 0.0 then s else 0.0
    case HourOutOfRange => ErrorRetrySeconds
  }

  /** A point in time relative to the start of the current day. */
  datatype Instant = Instant(dayOffset: nat, clock: Clock)

  function MicrosSinceToday(i: Instant): int {
    i.dayOffset * MicrosPerDay + MicrosOfDay(i.clock)
  }

  /** The next run with the hour rolled over into the next day, as adding a `timedelta` would. */
  function NextRun(now: Clock): (r: Instant)
    requires ValidClock(now)
    ensures ValidClock(r.clock) && r.clock.second == 0 && r.clock.microsecond == 0
    ensures r.clock.minute % IntervalMinutes == 0
    ensures r.dayOffset <= 1
  {
    var next := NextMinute(now.minute);
    if next >= 60 then
      if now.hour + 1 < 24 then Instant(0, Clock(now.hour + 1, 0, 0, 0)) else Instant(1, Clock(0, 0, 0, 0))
    else
      Instant(0, Clock(now.hour, next, 0, 0))
  }

  /** The corrected next run agrees with the computation as written wherever that one succeeds. */
  lemma NextRunAgreesWhereDefined(now: Clock)
    requires ValidClock(now)
    ensures NextRunAsWritten(now).At? ==> NextRun(now) == Instant(0, NextRunAsWritten(now).clock)
    ensures NextRunAsWritten(now).HourOutOfRange? ==> NextRun(now) == Instant(1, Clock(0, 0, 0, 0))
  {
  }

  /** With the rollover, the next run is always after now and at most 15 minutes away, also late in the evening. */
  lemma NextRunWithinInterval(now: Clock)
    requires ValidClock(now)
    ensures 0 < MicrosSinceToday(NextRun(now)) - MicrosOfDay(now) <= MicrosPerInterval
  {
  }

  /** The index of the quarter hour of the day that `now` lies in. */
  function QuarterOfDay(now: Clock): (q: int)
    requires ValidClock(now)
    ensures 0 <= q < 96
    ensures q * MicrosPerInterval <= MicrosOfDay(now) < (q + 1) * MicrosPerInterval
  {
    var m := now.minute / IntervalMinutes;
    assert IntervalMinutes * m <= now.minute < IntervalMinutes * (m + 1);
    now.hour * 4 + m
  }

  /** The next run is the start of the following quarter hour. */
  lemma NextRunStartsNextQuarter(now: Clock)
    requires ValidClock(now)
    ensures MicrosSinceToday(NextRun(now)) == (QuarterOfDay(now) + 1) * MicrosPerInterval
  {
  }

  /** The next run is the first quarter-hour boundary after now: no boundary lies strictly between. */
  lemma NextRunIsFirstBoundary(now: Clock, k: int)
    requires ValidClock(now)
    requires MicrosOfDay(now) < k * MicrosPerInterval
    ensures MicrosSinceToday(NextRun(now)) <= k * MicrosPerInterval
  {
    NextRunStartsNextQuarter(now);
    assert QuarterOfDay(now) < k;
  }

  /** How long the corrected loop sleeps after a run that ended at `now`. */
  function Delay(now: Clock): (d: real)
    requires ValidClock(now)
    ensures 0.0 < d <= 900.0
  {
    var gap := MicrosSinceToday(NextRun(now)) - MicrosOfDay(now);
    NextRunWithinInterval(now);
    ScaleToSeconds(gap);
    gap as real / MicrosPerSecond as real
  }

  /**
   * As written, a run ending at 23:50 fails to compute the next run and the
   * error handler sleeps 60 seconds, so the analysis runs again at 23:51
   * instead of at midnight, ten minutes later.
   */
  lemma LateEveningRunRepeatsAfterAMinute()
    ensures ValidClock(Clock(23, 50, 0, 0))
    ensures NextRunAsWritten(Clock(23, 50, 0, 0)).HourOutOfRange?
    ensures DelayAsWritten(Clock(23, 50, 0, 0)) == 60.0
    ensures Delay(Clock(23, 50, 0, 0)) == 600.0
  {
    var now := Clock(23, 50, 0, 0);
    assert MicrosSinceToday(NextRun(now)) == MicrosPerDay;
    assert MicrosOfDay(now) == MicrosPerDay - 600 * MicrosPerSecond;
  }
}
