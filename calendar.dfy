/**
 * Proleptic Gregorian date-times as Python's `datetime` represents them, all in UTC.
 * A date-time is a civil date plus the microseconds elapsed since its midnight; its
 * instant counts microseconds from 0001-01-01T00:00, so that comparing two date-times
 * and subtracting them works on instants, as it does for aware datetimes.
 */
module Calendar {
  import opened Wrappers

  /** Microseconds in one day (86 400 seconds). */
  const MicrosPerDay: int := 86_400_000_000

  predicate IsLeap(year: int) {
    year % 4 == 0 && (year % 100 != 0 || year % 400 == 0)
  }

  function DaysInMonth(year: int, month: int): (n: int)
    ensures 28 <= n <= 31
    ensures n == 29 <==> month == 2 && IsLeap(year)
  {
    if month == 2 then (if IsLeap(year) then 29 else 28)
    else if month == 4 || month == 6 || month == 9 || month == 11 then 30
    else 31
  }

  datatype Civil = Civil(year: int, month: int, day: int, usec: int)
  {
    predicate WellFormed() {
      1 <= year && 1 <= month <= 12 && 1 <= day <= DaysInMonth(year, month) && 0 <= usec < MicrosPerDay
    }
  }

  /** A date-time Python accepts: a real calendar day (year 1 onwards) and a time of day. */
  type DateTime = c: Civil | c.WellFormed() witness Civil(1, 1, 1, 0)

  /** Days from 0001-01-01 to the first of January of `year`. */
  function DaysBeforeYear(year: int): int {
    var y := year - 1;
    y * 365 + y / 4 - y / 100 + y / 400
  }

  /** Days from the first of January of `year` to the first of `month`. */
  function DaysBeforeMonth(year: int, month: int): int
    requires 1 <= month <= 12
  {
    [0, 31, 59, 90, 120, 151, 181, 212, 243, 273, 304, 334][month - 1]
      + (if month > 2 && IsLeap(year) then 1 else 0)
  }

  lemma YearLength(year: int)
    ensures DaysBeforeYear(year + 1) - DaysBeforeYear(year) == if IsLeap(year) then 366 else 365
  {
    var y := year - 1;
    var a, b, c := year / 4 - y / 4, year / 100 - y / 100, year / 400 - y / 400;
    assert DaysBeforeYear(year + 1) - DaysBeforeYear(year) == 365 + a - b + c;
    StepOver4(y);
    StepOver100(y);
    StepOver400(y);
    Divisors(year);
  }

  lemma Divisors(year: int)
    ensures year % 400 == 0 ==> year % 100 == 0
    ensures year % 100 == 0 ==> year % 4 == 0
  {
    if year % 400 == 0 {
      var k := year / 400;
      assert year == 100 * (4 * k);
      HundredsDivisible(4 * k);
    }
    if year % 100 == 0 {
      var k := year / 100;
      assert year == 4 * (25 * k);
      FoursDivisible(25 * k);
    }
  }

  lemma HundredsDivisible(k: int)
    ensures (100 * k) % 100 == 0
  {
  }

  lemma FoursDivisible(k: int)
    ensures (4 * k) % 4 == 0
  {
  }

  lemma StepOver4(y: int)
    ensures (y + 1) / 4 - y / 4 == if (y + 1) % 4 == 0 then 1 else 0
  {
    var q, r := y / 4, y % 4;
    assert y == 4 * q + r && 0 <= r < 4;
    if r == 3 {
      assert y + 1 == 4 * (q + 1);
    } else {
      assert y + 1 == 4 * q + (r + 1);
    }
  }

  lemma StepOver100(y: int)
    ensures (y + 1) / 100 - y / 100 == if (y + 1) % 100 == 0 then 1 else 0
  {
    var q, r := y / 100, y % 100;
    assert y == 100 * q + r && 0 <= r < 100;
    if r == 99 {
      assert y + 1 == 100 * (q + 1);
    } else {
      assert y + 1 == 100 * q + (r + 1);
    }
  }

  lemma StepOver400(y: int)
    ensures (y + 1) / 400 - y / 400 == if (y + 1) % 400 == 0 then 1 else 0
  {
    var q, r := y / 400, y % 400;
    assert y == 400 * q + r && 0 <= r < 400;
    if r == 399 {
      assert y + 1 == 400 * (q + 1);
    } else {
      assert y + 1 == 400 * q + (r + 1);
    }
  }

  /** Two years in a row are never both leap years. */
  lemma NoConsecutiveLeapYears(year: int)
    ensures !(IsLeap(year) && IsLeap(year + 1))
  {
    if year % 4 == 0 {
      assert (year + 1) % 4 == 1;
    }
  }

  lemma MonthLength(year: int, month: int)
    requires 1 <= month < 12
    ensures DaysBeforeMonth(year, month + 1) - DaysBeforeMonth(year, month) == DaysInMonth(year, month)
  {
  }

  /** Python's `toordinal()`: 0001-01-01 is day 1. */
  function Ordinal(d: DateTime): int {
    DaysBeforeYear(d.year) + DaysBeforeMonth(d.year, d.month) + d.day
  }

  /** The instant of `d`, in microseconds since 0001-01-01T00:00. */
  function Instant(d: DateTime): int {
    Ordinal(d) * MicrosPerDay + d.usec
  }

  /** The calendar day after `d`, at the same time of day. */
  function NextDay(d: DateTime): (r: DateTime)
    ensures r.usec == d.usec
  {
    if d.day < DaysInMonth(d.year, d.month) then d.(day := d.day + 1)
    else if d.month < 12 then d.(month := d.month + 1, day := 1)
    else Civil(d.year + 1, 1, 1, d.usec)
  }

  lemma NextDayOrdinal(d: DateTime)
    ensures Ordinal(NextDay(d)) == Ordinal(d) + 1
  {
    if d.day == DaysInMonth(d.year, d.month) {
      if d.month < 12 {
        MonthLength(d.year, d.month);
      } else {
        YearLength(d.year);
      }
    }
  }

  /** `d + timedelta(days=n)`. */
  function AddDays(d: DateTime, n: nat): (r: DateTime)
    ensures r.usec == d.usec
    decreases n
  {
    if n == 0 then d else AddDays(NextDay(d), n - 1)
  }

  /** Adding `n` days moves the ordinal by exactly `n` days. */
  lemma {:induction false} AddDaysOrdinal(d: DateTime, n: nat)
    ensures Ordinal(AddDays(d, n)) == Ordinal(d) + n
    decreases n
  {
    if n > 0 {
      NextDayOrdinal(d);
      AddDaysOrdinal(NextDay(d), n - 1);
    }
  }

  /**
   * Python's `(later - earlier).days`: the whole days in the difference, rounded toward
   * minus infinity (a timedelta keeps its seconds and microseconds non-negative).
   */
  function WholeDays(later: DateTime, earlier: DateTime): (days: int)
    ensures days * MicrosPerDay <= Instant(later) - Instant(earlier) < (days + 1) * MicrosPerDay
  {
    (Instant(later) - Instant(earlier)) / MicrosPerDay
  }

  lemma WholeDaysMonotone(a: DateTime, b: DateTime, since: DateTime)
    requires Instant(a) <= Instant(b)
    ensures WholeDays(a, since) <= WholeDays(b, since)
  {
  }

  /** `d.replace(day=1)`. */
  function FirstOfMonth(d: DateTime): (r: DateTime)
    ensures r.year == d.year && r.month == d.month && r.day == 1 && r.usec == d.usec
    ensures Ordinal(r) == Ordinal(d) - (d.day - 1)
  {
    d.(day := 1)
  }

  /** `d.replace(year=year)`, which raises ValueError (here `None`) when the day does not exist in that year. */
  function ReplaceYear(d: DateTime, year: int): (r: Option<DateTime>)
    requires year >= 1
    ensures r.None? <==> d.month == 2 && d.day == 29 && !IsLeap(year)
    ensures r.Some? ==> r.value.year == year && r.value.month == d.month && r.value.day == d.day && r.value.usec == d.usec
  {
    if d.day <= DaysInMonth(year, d.month) then Some(d.(year := year)) else None
  }

  /** Every 29 February has no same-date anniversary one year later. */
  lemma LeapDayHasNoAnniversary(d: DateTime)
    requires d.month == 2 && d.day == 29
    ensures ReplaceYear(d, d.year + 1) == None
  {
  }

  /**
   * The same date one year later, with 29 February clamped to 28 February. It is the
   * anniversary `ReplaceYear(d, d.year + 1)` wherever that exists, and lies 365 or 366
   * days after `d`: 366 exactly when the year in between holds a 29 February.
   */
  function OneYearLater(d: DateTime): (r: DateTime)
    ensures r.year == d.year + 1 && r.month == d.month && r.usec == d.usec
    ensures ReplaceYear(d, d.year + 1).Some? ==> r == ReplaceYear(d, d.year + 1).value
    ensures ReplaceYear(d, d.year + 1).None? ==> r.day == 28
    ensures Ordinal(r) - Ordinal(d) == if SpansLeapDay(d) then 366 else 365
  {
    var limit := DaysInMonth(d.year + 1, d.month);
    var r := d.(year := d.year + 1, day := if d.day <= limit then d.day else limit);
    OneYearDistance(d, r);
    r
  }

  lemma OneYearDistance(d: DateTime, r: DateTime)
    requires r.year == d.year + 1 && r.month == d.month
    requires r.day == if d.day <= DaysInMonth(d.year + 1, d.month) then d.day else DaysInMonth(d.year + 1, d.month)
    ensures Ordinal(r) - Ordinal(d) == if SpansLeapDay(d) then 366 else 365
  {
    YearLength(d.year);
    NoConsecutiveLeapYears(d.year);
    var m := d.month;
    var years := DaysBeforeYear(d.year + 1) - DaysBeforeYear(d.year);
    var months := DaysBeforeMonth(r.year, m) - DaysBeforeMonth(d.year, m);
    assert Ordinal(r) - Ordinal(d) == years + months + (r.day - d.day);
    if m <= 2 {
      assert months == 0;
      if m == 2 && d.day == 29 {
        assert r.day == 28;
      } else {
        assert r.day == d.day;
      }
    } else {
      assert r.day == d.day;
      assert months == (if IsLeap(d.year + 1) then 1 else 0) - (if IsLeap(d.year) then 1 else 0);
    }
  }

  /** Whether the year that starts at `d` contains a 29 February (not counting `d` itself). */
  predicate SpansLeapDay(d: DateTime) {
    if d.month <= 2 then IsLeap(d.year) && !(d.month == 2 && d.day == 29) else IsLeap(d.year + 1)
  }

  /** Months counted from January of year 0. */
  function MonthIndex(d: DateTime): int {
    d.year * 12 + d.month - 1
  }

  /** The first day of the month `months` calendar months after the month of `d`, at the time of day of `d`. */
  function FirstOfMonthAfter(d: DateTime, months: nat): (r: DateTime)
    ensures r.day == 1 && r.usec == d.usec
    ensures MonthIndex(r) == MonthIndex(d) + months
  {
    var index := MonthIndex(d) + months;
    Civil(index / 12, index % 12 + 1, 1, d.usec)
  }

  lemma {:induction false} AddDaysSplit(d: DateTime, a: nat, b: nat)
    ensures AddDays(d, a + b) == AddDays(AddDays(d, a), b)
    decreases a
  {
    if a > 0 {
      AddDaysSplit(NextDay(d), a - 1, b);
    }
  }

  /** Adding days that stay inside the month only moves the day of the month. */
  lemma {:induction false} AddDaysWithinMonth(d: DateTime, n: nat)
    requires d.day + n <= DaysInMonth(d.year, d.month)
    ensures AddDays(d, n) == d.(day := d.day + n)
    decreases n
  {
    if n > 0 {
      AddDaysWithinMonth(NextDay(d), n - 1);
    }
  }

  /** From any day of a month, the days left in it lead to the day after the month's last day. */
  lemma AddDaysPastMonthEnd(d: DateTime)
    ensures AddDays(d, DaysInMonth(d.year, d.month) - d.day + 1) == NextDay(d.(day := DaysInMonth(d.year, d.month)))
  {
    var rest: nat := DaysInMonth(d.year, d.month) - d.day;
    AddDaysWithinMonth(d, rest);
    AddDaysStep(d, rest, d.(day := DaysInMonth(d.year, d.month)));
  }

  lemma AddDaysStep(d: DateTime, n: nat, reached: DateTime)
    requires AddDays(d, n) == reached
    ensures AddDays(d, n + 1) == NextDay(reached)
  {
    AddDaysSucc(d, n);
  }

  /** One day more is the day after. */
  lemma {:induction false} AddDaysSucc(d: DateTime, n: nat)
    ensures AddDays(d, n + 1) == NextDay(AddDays(d, n))
    decreases n
  {
    if n > 0 {
      AddDaysSucc(NextDay(d), n - 1);
    }
  }

  /** ... which is the first of the next month. */
  lemma AddDaysToNextMonth(d: DateTime)
    ensures AddDays(d, DaysInMonth(d.year, d.month) - d.day + 1) == FirstOfMonthAfter(d, 1)
  {
    AddDaysPastMonthEnd(d);
    FirstOfNextMonth(d);
  }

  lemma FirstOfNextMonth(d: DateTime)
    ensures FirstOfMonthAfter(d, 1) == NextDay(d.(day := DaysInMonth(d.year, d.month)))
  {
    var index := MonthIndex(d) + 1;
    if d.month < 12 {
      assert index == d.year * 12 + d.month;
      assert index / 12 == d.year && index % 12 == d.month;
    } else {
      assert index == (d.year + 1) * 12;
      assert index / 12 == d.year + 1 && index % 12 == 0;
    }
  }

  lemma FirstOfMonthAfterCompose(d: DateTime, a: nat, b: nat)
    ensures FirstOfMonthAfter(FirstOfMonthAfter(d, a), b) == FirstOfMonthAfter(d, a + b)
  {
  }

  /** The first of a later month is a later day. */
  lemma {:induction false} FirstOfMonthAfterIsLater(d: DateTime, months: nat)
    requires months > 0
    ensures Ordinal(d) < Ordinal(FirstOfMonthAfter(d, months))
    decreases months
  {
    var next := FirstOfMonthAfter(d, 1);
    NextMonthIsLater(d);
    if months > 1 {
      FirstOfMonthAfterIsLater(next, months - 1);
      FirstOfMonthAfterCompose(d, 1, months - 1);
    }
  }

  lemma NextMonthIsLater(d: DateTime)
    ensures Ordinal(d) < Ordinal(FirstOfMonthAfter(d, 1))
  {
    AddDaysToNextMonth(d);
    LaterByDays(d, FirstOfMonthAfter(d, 1), DaysInMonth(d.year, d.month) - d.day + 1);
  }

  lemma LaterByDays(a: DateTime, b: DateTime, n: nat)
    requires n > 0 && b == AddDays(a, n)
    ensures Ordinal(a) < Ordinal(b)
  {
    AddDaysOrdinal(a, n);
  }
}
