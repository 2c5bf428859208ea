/**
 * The proleptic Gregorian calendar that pandas uses to decompose a parsed
 * timestamp (`.dt.month`, `.dt.hour`, `.dt.day_name()`).
 *
 * Days are numbered from 0001-01-01, which is day 0 and a Monday. The
 * number of days before a year is defined twice: once by adding up year
 * lengths one year at a time (the reference), and once by the closed form
 * calendar libraries evaluate; `YearStartClosedForm` proves them equal.
 */
module Calendar {

  datatype DateTime = DateTime(year: int, month: int, day: int, hour: int, minute: int, second: int)

  predicate IsLeapYear(y: int)
  {
    y % 4 == 0 && (y % 100 != 0 || y % 400 == 0)
  }

  function YearLength(y: int): int
  {
    if IsLeapYear(y) then 366 else 365
  }

  function DaysInMonth(y: int, m: int): (n: int)
    requires 1 <= m <= 12
    ensures 28 <= n <= 31
    ensures n == 29 <==> m == 2 && IsLeapYear(y)
  {
    if m == 2 then (if IsLeapYear(y) then 29 else 28)
    else if m == 4 || m == 6 || m == 9 || m == 11 then 30
    else 31
  }

  /** A calendar date of the proleptic Gregorian calendar, from year 1 on. */
  predicate ValidDate(y: int, m: int, d: int)
  {
    1 <= y && 1 <= m <= 12 && 1 <= d <= DaysInMonth(y, m)
  }

  predicate ValidDateTime(t: DateTime)
  {
    ValidDate(t.year, t.month, t.day)
    && 0 <= t.hour < 24 && 0 <= t.minute < 60 && 0 <= t.second < 60
  }

  /** Days of year `y` before the first day of month `m` (month 13 stands for the year's end). */
  function DaysBeforeMonth(y: int, m: int): nat
    requires 1 <= m <= 13
  {
    if m == 1 then 0 else DaysBeforeMonth(y, m - 1) + DaysInMonth(y, m - 1)
  }

  lemma DaysBeforeYearEnd(y: int)
    ensures DaysBeforeMonth(y, 13) == YearLength(y)
  {
    var leap := if IsLeapYear(y) then 1 else 0;
    assert DaysBeforeMonth(y, 2) == 31;
    assert DaysBeforeMonth(y, 3) == 59 + leap;
    assert DaysBeforeMonth(y, 4) == 90 + leap;
    assert DaysBeforeMonth(y, 5) == 120 + leap;
    assert DaysBeforeMonth(y, 6) == 151 + leap;
    assert DaysBeforeMonth(y, 7) == 181 + leap;
    assert DaysBeforeMonth(y, 8) == 212 + leap;
    assert DaysBeforeMonth(y, 9) == 243 + leap;
    assert DaysBeforeMonth(y, 10) == 273 + leap;
    assert DaysBeforeMonth(y, 11) == 304 + leap;
    assert DaysBeforeMonth(y, 12) == 334 + leap;
  }

  /** Reference count: the days of all years before `y`, added one year at a time. */
  function DaysBeforeYear(y: int): nat
    requires 1 <= y
  {
    if y == 1 then 0 else DaysBeforeYear(y - 1) + YearLength(y - 1)
  }

  /** The closed form: 365 days a year, plus one leap day every 4 years, minus every 100, plus every 400. */
  function YearStart(y: int): int
    requires 1 <= y
  {
    var p := y - 1;
    365 * p + p / 4 - p / 100 + p / 400
  }

  /** Multiples of `k` up to `q`, compared with those up to `q - 1`. */
  lemma MultiplesStep(q: int, k: int)
    requires 1 <= q && (k == 4 || k == 100 || k == 400)
    ensures q / k - (q - 1) / k == if q % k == 0 then 1 else 0
  {
    if k == 4 {
      if q % 4 == 0 { assert q - 1 == 4 * (q / 4 - 1) + 3; }
      else { assert q - 1 == 4 * (q / 4) + (q % 4 - 1); }
    } else if k == 100 {
      if q % 100 == 0 { assert q - 1 == 100 * (q / 100 - 1) + 99; }
      else { assert q - 1 == 100 * (q / 100) + (q % 100 - 1); }
    } else {
      if q % 400 == 0 { assert q - 1 == 400 * (q / 400 - 1) + 399; }
      else { assert q - 1 == 400 * (q / 400) + (q % 400 - 1); }
    }
  }

  /** The leap days counted up to `q` exceed those up to `q - 1` by one exactly when `q` is a leap year. */
  lemma LeapDaysStep(q: int)
    requires 1 <= q
    ensures q / 4 - q / 100 + q / 400
         == (q - 1) / 4 - (q - 1) / 100 + (q - 1) / 400 + (if IsLeapYear(q) then 1 else 0)
  {
    MultiplesStep(q, 4);
    MultiplesStep(q, 100);
    MultiplesStep(q, 400);
    assert q % 400 == 0 ==> q % 100 == 0 && q % 4 == 0;
    assert q % 100 == 0 ==> q % 4 == 0;
  }

  lemma {:induction false} YearStartClosedForm(y: int)
    requires 1 <= y
    ensures YearStart(y) == DaysBeforeYear(y)
  {
    if y > 1 {
      YearStartClosedForm(y - 1);
      LeapDaysStep(y - 1);
    }
  }

  /** Day number of a date, counting 0001-01-01 as day 0. */
  function DayNumber(y: int, m: int, d: int): (n: int)
    requires ValidDate(y, m, d)
    ensures 0 <= n
  {
    YearStartClosedForm(y);
    YearStart(y) + DaysBeforeMonth(y, m) + (d - 1)
  }

  const WeekdayNames: seq<string> :=
    ["Monday", "Tuesday", "Wednesday", "Thursday", "Friday", "Saturday", "Sunday"]

  /** Position in `WeekdayNames`: 0 for Monday, as day 0 (0001-01-01) is a Monday. */
  function WeekdayIndex(y: int, m: int, d: int): (i: int)
    requires ValidDate(y, m, d)
    ensures 0 <= i < 7
  {
    DayNumber(y, m, d) % 7
  }

  /** The full English weekday name of a date, as `day_name()` gives it. */
  function DayName(y: int, m: int, d: int): (name: string)
    requires ValidDate(y, m, d)
    ensures name in WeekdayNames
  {
    WeekdayNames[WeekdayIndex(y, m, d)]
  }

  /** The calendar date that follows (y, m, d). */
  function NextDate(y: int, m: int, d: int): (int, int, int)
    requires ValidDate(y, m, d)
  {
    if d < DaysInMonth(y, m) then (y, m, d + 1)
    else if m < 12 then (y, m + 1, 1)
    else (y + 1, 1, 1)
  }

  /** The day count advances by exactly one from a date to the next, across month and year ends. */
  lemma NextDateCountsOneDay(y: int, m: int, d: int)
    requires ValidDate(y, m, d)
    ensures var (y', m', d') := NextDate(y, m, d);
            ValidDate(y', m', d') && DayNumber(y', m', d') == DayNumber(y, m, d) + 1
  {
    if d == DaysInMonth(y, m) && m == 12 {
      DaysBeforeYearEnd(y);
      YearStartClosedForm(y);
      YearStartClosedForm(y + 1);
    }
  }

  /** One day later is one weekday later, modulo the week. */
  lemma WeekdayAdvances(n: int, n': int)
    requires 0 <= n && n' == n + 1
    ensures n' % 7 == (n % 7 + 1) % 7
  {
    var q, r := n / 7, n % 7;
    assert n == 7 * q + r;
    if r == 6 {
      assert n' == 7 * (q + 1);
    } else {
      assert n' == 7 * q + (r + 1);
    }
  }

  /** Consecutive dates have consecutive weekday names, Sunday being followed by Monday. */
  lemma NextDateNextWeekday(y: int, m: int, d: int)
    requires ValidDate(y, m, d)
    ensures var (y', m', d') := NextDate(y, m, d);
            ValidDate(y', m', d') && WeekdayIndex(y', m', d') == (WeekdayIndex(y, m, d) + 1) % 7
  {
    NextDateCountsOneDay(y, m, d);
    var (y', m', d') := NextDate(y, m, d);
    WeekdayAdvances(DayNumber(y, m, d), DayNumber(y', m', d'));
  }

  lemma NewYear2018IsMonday()
    ensures DayName(2018, 1, 1) == "Monday"
  {
  }

  lemma March15th2018IsThursday()
    ensures DayName(2018, 3, 15) == "Thursday"
  {
  }

  lemma UnixEpochIsThursday()
    ensures DayName(1970, 1, 1) == "Thursday"
  {
  }
}
