/**
 * The daily health-check scheduler (services/scheduler.py): when the next
 * 03:00 run is, how long the loop sleeps, and the global task slot.
 * Dates follow the proleptic Gregorian calendar of Python's `datetime`,
 * whose years run from 1 to 9999.
 */
module Scheduler {
  import opened Wrappers
  import opened Tasks

  const MinYear: int := 1
  const MaxYear: int := 9999
  const SecondsPerDay: int := 86400
  /** `target_time = time(hour=3)`, as seconds after midnight. */
  const TargetSecond: int := 10800
  /** The back-off after any exception in the loop body. */
  const ErrorBackoffSeconds: int := 3600

  predicate IsLeapYear(y: int) {
    y % 4 == 0 && (y % 100 != 0 || y % 400 == 0)
  }

  function DaysInMonth(y: int, m: int): (n: int)
    requires 1 <= m <= 12
    ensures 28 <= n <= 31
  {
    if m == 2 then (if IsLeapYear(y) then 29 else 28)
    else if m == 4 || m == 6 || m == 9 || m == 11 then 30
    else 31
  }

  datatype Date = Date(year: int, month: int, day: int)

  /** The dates `datetime.date` accepts. */
  predicate ValidDate(d: Date) {
    MinYear <= d.year <= MaxYear && 1 <= d.month <= 12 && 1 <= d.day <= DaysInMonth(d.year, d.month)
  }

  /** A moment as the loop reads it from `datetime.now()`, to the second. */
  datatype DateTime = DateTime(date: Date, second: int)

  predicate ValidDateTime(t: DateTime) {
    ValidDate(t.date) && 0 <= t.second < SecondsPerDay
  }

  /** Days in the years before `y`. */
  function DaysBeforeYear(y: int): int
    requires y >= 1
  {
    var p := y - 1;
    365 * p + p / 4 - p / 100 + p / 400
  }

  /** Days in the months of year `y` before month `m`. */
  function DaysBeforeMonth(y: int, m: int): int
    requires 1 <= m <= 12
  {
    var common := if m == 1 then 0 else if m == 2 then 31 else if m == 3 then 59 else if m == 4 then 90
      else if m == 5 then 120 else if m == 6 then 151 else if m == 7 then 181 else if m == 8 then 212
      else if m == 9 then 243 else if m == 10 then 273 else if m == 11 then 304 else 334;
    common + (if m > 2 && IsLeapYear(y) then 1 else 0)
  }

  /** The date's ordinal (`date.toordinal()`, January 1 of year 1 is day 1). */
  function DayNumber(d: Date): int
    requires ValidDate(d)
  {
    DaysBeforeYear(d.year) + DaysBeforeMonth(d.year, d.month) + d.day
  }

  /** Seconds from `a` to `b` (`(b - a).total_seconds()`). */
  function SecondsBetween(a: DateTime, b: DateTime): int
    requires ValidDateTime(a) && ValidDateTime(b)
  {
    (DayNumber(b.date) - DayNumber(a.date)) * SecondsPerDay + (b.second - a.second)
  }

  /** A month's days are numbered one after the other. */
  lemma MonthLengthsAddUp(y: int, m: int)
    requires 1 <= m < 12
    ensures DaysBeforeMonth(y, m + 1) == DaysBeforeMonth(y, m) + DaysInMonth(y, m)
  {
  }

  /** A year has 366 days when it is a leap year, else 365. */
  lemma YearLength(y: int)
    requires y >= 1
    ensures DaysBeforeYear(y + 1) == DaysBeforeYear(y) + (if IsLeapYear(y) then 366 else 365)
  {
    QuotientStep4(y);
    QuotientStep100(y);
    QuotientStep400(y);
  }

  // How each divisor's quotient grows from y - 1 to y.
  lemma QuotientStep4(y: int)
    ensures y / 4 == (y - 1) / 4 + (if y % 4 == 0 then 1 else 0)
  {
  }

  lemma QuotientStep100(y: int)
    ensures y / 100 == (y - 1) / 100 + (if y % 100 == 0 then 1 else 0)
  {
  }

  lemma QuotientStep400(y: int)
    ensures y / 400 == (y - 1) / 400 + (if y % 400 == 0 then 1 else 0)
  {
  }

  /**
   * The day after `d`: the next day of the month, else the 1st of the next
   * month, else January 1 of the next year (the rollover lines 45-50 of
   * the loop intend).
   */
  function NextDay(d: Date): (r: Date)
    requires ValidDate(d)
    ensures d.year < MaxYear || d.month < 12 || d.day < 31 ==> ValidDate(r)
  {
    if d.day + 1 <= DaysInMonth(d.year, d.month) then Date(d.year, d.month, d.day + 1)
    else if d.month == 12 then Date(d.year + 1, 1, 1)
    else Date(d.year, d.month + 1, 1)
  }

  /** The next day is exactly one day later. */
  lemma NextDayIsOneDayLater(d: Date)
    requires ValidDate(d) && ValidDate(NextDay(d))
    ensures DayNumber(NextDay(d)) == DayNumber(d) + 1
  {
    if d.day + 1 <= DaysInMonth(d.year, d.month) {
    } else if d.month == 12 {
      YearLength(d.year);
      assert DaysBeforeMonth(d.year, 12) + 31 == if IsLeapYear(d.year) then 366 else 365;
    } else {
      MonthLengthsAddUp(d.year, d.month);
    }
  }

  /**
   * The next run as the loop computes it: today at 03:00 before 03:00,
   * else the next day at 03:00 by `date.replace(day=day+1)`, which raises
   * ValueError on the last day of a month.  The fallback meant for that
   * case sits in a later `try` and is never reached.
   */
  function NextRunAsWritten(now: DateTime): (r: Result<DateTime>)
    requires ValidDateTime(now)
    ensures r.Err? <==> now.second >= TargetSecond && now.date.day == DaysInMonth(now.date.year, now.date.month)
    ensures r.Err? ==> r.error.ValueError?
  {
    if now.second >= TargetSecond then
      if now.date.day + 1 > DaysInMonth(now.date.year, now.date.month) then Err(ValueError("day is out of range for month"))
      else Ok(DateTime(Date(now.date.year, now.date.month, now.date.day + 1), TargetSecond))
    else Ok(DateTime(now.date, TargetSecond))
  }

  /**
   * The next run with the month-end fallback in effect: after 03:00 on the
   * last day of a month it is 03:00 on the 1st of the next month, or on
   * January 1 of the next year in December; that year does not exist after
   * 9999, where `datetime` raises ValueError.
   */
  function NextRun(now: DateTime): (r: Result<DateTime>)
    requires ValidDateTime(now)
    ensures r.Err? <==> now.second >= TargetSecond && now.date == Date(MaxYear, 12, 31)
    ensures r.Ok? ==> ValidDateTime(r.value) && r.value.second == TargetSecond
    ensures r.Ok? && now.second < TargetSecond ==> r.value.date == now.date
    ensures r.Ok? && now.second >= TargetSecond ==> r.value.date == NextDay(now.date)
  {
    var d := now.date;
    if now.second < TargetSecond then Ok(DateTime(d, TargetSecond))
    else if d.day + 1 <= DaysInMonth(d.year, d.month) then Ok(DateTime(Date(d.year, d.month, d.day + 1), TargetSecond))
    else if d.month == 12 then
      if d.year + 1 > MaxYear then Err(ValueError("year 10000 is out of range"))
      else Ok(DateTime(Date(d.year + 1, 1, 1), TargetSecond))
    else Ok(DateTime(Date(d.year, d.month + 1, 1), TargetSecond))
  }

  /** Where the written code yields a time, it is the intended one. */
  lemma AsWrittenAgreesAwayFromMonthEnd(now: DateTime)
    requires ValidDateTime(now)
    requires NextRunAsWritten(now).Ok?
    ensures NextRun(now) == NextRunAsWritten(now)
  {
  }

  /** 2025-01-31 at 04:00: the written code raises, the intended run is 2025-02-01 at 03:00. */
  lemma MonthEndCounterexample()
    ensures NextRunAsWritten(DateTime(Date(2025, 1, 31), 14400)).Err?
    ensures NextRun(DateTime(Date(2025, 1, 31), 14400)) == Ok(DateTime(Date(2025, 2, 1), TargetSecond))
  {
  }

  /**
   * The intended next run is strictly in the future and at most one day
   * away, and it is the first 03:00 after `now`.
   */
  lemma NextRunIsNextThreeOClock(now: DateTime)
    requires ValidDateTime(now) && NextRun(now).Ok?
    ensures 0 < SecondsBetween(now, NextRun(now).value) <= SecondsPerDay
    ensures now.second < TargetSecond ==> SecondsBetween(now, NextRun(now).value) == TargetSecond - now.second
    ensures now.second >= TargetSecond ==> SecondsBetween(now, NextRun(now).value) == SecondsPerDay + TargetSecond - now.second
  {
    if now.second >= TargetSecond {
      NextDayIsOneDayLater(now.date);
    }
  }

  /**
   * The seconds one iteration of `daily_health_check_loop` sleeps, as the
   * loop is written: until the next run and, if the health check then
   * raises, a further back-off.  When the next-run computation itself
   * raises (after 03:00 on a month's last day), the `except` clause only
   * backs off.
   */
  function IterationSleep(now: DateTime, check: Outcome): (s: int)
    requires ValidDateTime(now)
    ensures NextRunAsWritten(now).Err? ==> s == ErrorBackoffSeconds
    ensures NextRunAsWritten(now).Ok? ==>
      s == SecondsBetween(now, NextRun(now).value) + (if check.Raised? then ErrorBackoffSeconds else 0)
  {
    match NextRunAsWritten(now)
    case Err(_) => ErrorBackoffSeconds
    case Ok(next) =>
      AsWrittenAgreesAwayFromMonthEnd(now);
      SecondsBetween(now, next) + (if check.Raised? then ErrorBackoffSeconds else 0)
  }

  /** The same iteration with the month-end fallback in effect. */
  function IterationSleepIntended(now: DateTime, check: Outcome): (s: int)
    requires ValidDateTime(now)
    ensures NextRun(now).Err? ==> s == ErrorBackoffSeconds
    ensures NextRun(now).Ok? ==>
      s == SecondsBetween(now, NextRun(now).value) + (if check.Raised? then ErrorBackoffSeconds else 0)
  {
    match NextRun(now)
    case Err(_) => ErrorBackoffSeconds
    case Ok(next) => SecondsBetween(now, next) + (if check.Raised? then ErrorBackoffSeconds else 0)
  }

  /** Every iteration, as written or intended, sleeps a positive time, at most a day plus the back-off. */
  lemma IterationSleepBounds(now: DateTime, check: Outcome)
    requires ValidDateTime(now)
    ensures 0 < IterationSleep(now, check) <= SecondsPerDay + ErrorBackoffSeconds
    ensures 0 < IterationSleepIntended(now, check) <= SecondsPerDay + ErrorBackoffSeconds
  {
    if NextRun(now).Ok? {
      NextRunIsNextThreeOClock(now);
    }
  }

  /**
   * After 03:00 on a month's last day the written loop only backs off for
   * an hour, where the intended loop sleeps until 03:00 on the next day;
   * and an hour later, unless midnight has passed, it raises again.
   */
  lemma MonthEndIterationOnlyBacksOff(now: DateTime, check: Outcome)
    requires ValidDateTime(now) && now.second >= TargetSecond
    requires now.date.day == DaysInMonth(now.date.year, now.date.month)
    ensures IterationSleep(now, check) == ErrorBackoffSeconds
    ensures now.date != Date(MaxYear, 12, 31) ==>
      IterationSleepIntended(now, check) ==
        SecondsPerDay + TargetSecond - now.second + (if check.Raised? then ErrorBackoffSeconds else 0)
    ensures now.second + ErrorBackoffSeconds < SecondsPerDay ==>
      NextRunAsWritten(DateTime(now.date, now.second + ErrorBackoffSeconds)).Err?
  {
    if now.date != Date(MaxYear, 12, 31) {
      NextRunIsNextThreeOClock(now);
    }
  }

  /** The scheduler's global `_scheduler_task`. */
  class Scheduler {
    var task: Slot

    constructor ()
      ensures task == Empty
    {
      task := Empty;
    }

    /** `start_scheduler`: a no-op while the task is running. */
    method StartScheduler()
      modifies this
      ensures task == Started(old(task))
      ensures old(task).Running() ==> task == old(task)
    {
      if task.Running() {
        return;
      }
      task := Live(false);
    }

    /** `stop_scheduler`: cancel the task and clear the slot. */
    method StopScheduler()
      modifies this
      ensures task == Empty
    {
      if task != Empty {
        task := Empty;
      }
    }
  }
}
