/** The parts of JavaScript's Date that the dashboard, the calendar and the
    settings page rely on, over integers: local calendar dates with 0-based
    months (as getMonth reports them), the Gregorian month lengths, the way the
    Date constructor and setMonth carry out-of-range months into the year and
    out-of-range days into the next month, and the weekday of a date. */
module Dates {

  /** A local calendar date: getFullYear(), getMonth() (0 = January) and getDate(). */
  datatype CivilDate = CivilDate(year: int, month: int, day: int)

  /** An instant: its getTime() in milliseconds and the local calendar date it falls on. */
  datatype Moment = Moment(ms: int, local: CivilDate)

  /** A month of a year, month 0-based. */
  datatype YearMonth = YearMonth(year: int, month: int)

  const MillisPerDay: int := 24 * 60 * 60 * 1000

  predicate IsLeapYear(y: int)
  {
    y % 4 == 0 && (y % 100 != 0 || y % 400 == 0)
  }

  /** Number of days of month m (0-based) of year y in the Gregorian calendar. */
  function DaysInMonth(y: int, m: int): (n: int)
    requires 0 <= m < 12
    ensures 28 <= n <= 31
    ensures m == 1 ==> (n == 29 <==> IsLeapYear(y)) && (n == 28 <==> !IsLeapYear(y))
    ensures m != 1 ==> n == 30 || n == 31
  {
    if m == 1 then (if IsLeapYear(y) then 29 else 28)
    else if m == 3 || m == 5 || m == 8 || m == 10 then 30
    else 31
  }

  predicate ValidDate(d: CivilDate)
  {
    0 <= d.month < 12 && 1 <= d.day <= DaysInMonth(d.year, d.month)
  }

  function YearMonthOf(d: CivilDate): YearMonth
  {
    YearMonth(d.year, d.month)
  }

  predicate ValidYearMonth(ym: YearMonth)
  {
    0 <= ym.month < 12
  }

  /** Months elapsed since January of year 0. */
  function MonthNumber(ym: YearMonth): int
  {
    ym.year * 12 + ym.month
  }

  /** The Date constructor's reading of (year, month + k): a month outside
      0..11 carries into the year, in either direction. */
  function AddMonths(ym: YearMonth, k: int): (r: YearMonth)
    ensures ValidYearMonth(r)
    ensures MonthNumber(r) == MonthNumber(ym) + k
  {
    YearMonth(ym.year + (ym.month + k) / 12, (ym.month + k) % 12)
  }

  /** A valid year-month is determined by its month number. */
  lemma MonthNumberInjective(a: YearMonth, b: YearMonth)
    requires ValidYearMonth(a) && ValidYearMonth(b)
    requires MonthNumber(a) == MonthNumber(b)
    ensures a == b
  {
  }

  /** Moving forward k months and back k months returns to the start. */
  lemma AddMonthsInverse(ym: YearMonth, k: int)
    requires ValidYearMonth(ym)
    ensures AddMonths(AddMonths(ym, k), -k) == ym
  {
    MonthNumberInjective(AddMonths(AddMonths(ym, k), -k), ym);
  }

  /** Date.prototype.setMonth(m) on the date d: the year and month become
      those of (d.year, m) after carrying, the day of the month is kept, and
      a day past the end of the target month runs on into the next month. */
  function SetMonth(d: CivilDate, m: int): (r: CivilDate)
    requires ValidDate(d)
    ensures ValidDate(r)
  {
    var target := AddMonths(YearMonth(d.year, 0), m);
    var len := DaysInMonth(target.year, target.month);
    if d.day <= len then CivilDate(target.year, target.month, d.day)
    else
      var next := AddMonths(target, 1);
      CivilDate(next.year, next.month, d.day - len)
  }

  /** setMonth lands in the requested month, or in the one after it when the
      day does not exist there; on days 1 to 28 it always lands in the requested month. */
  lemma SetMonthLands(d: CivilDate, m: int)
    requires ValidDate(d)
    ensures var got := MonthNumber(YearMonthOf(SetMonth(d, m)));
            var wanted := d.year * 12 + m;
            (got == wanted || got == wanted + 1) && (d.day <= 28 ==> got == wanted)
  {
  }

  /** Setting the month a date already has changes nothing. */
  lemma SetMonthSame(d: CivilDate)
    requires ValidDate(d)
    ensures SetMonth(d, d.month) == d
  {
    var target := AddMonths(YearMonth(d.year, 0), d.month);
    MonthNumberInjective(target, YearMonthOf(d));
  }

  /** `new Date(y, m, 1)`: the first day of month m of year y, after carrying. */
  function FirstOfMonth(ym: YearMonth): (r: CivilDate)
    ensures ValidDate(r)
  {
    var n := AddMonths(ym, 0);
    CivilDate(n.year, n.month, 1)
  }

  /** `new Date(y, m, 0)`: day 0 of a month is the last day of the month before it. */
  function DayZero(ym: YearMonth): (r: CivilDate)
    ensures ValidDate(r)
    ensures MonthNumber(YearMonthOf(r)) == MonthNumber(ym) - 1
    ensures r.day == DaysInMonth(r.year, r.month)
  {
    var p := AddMonths(ym, -1);
    CivilDate(p.year, p.month, DaysInMonth(p.year, p.month))
  }

  // ---------------------------------------------------------------------------
  // Day numbers and weekdays
  // ---------------------------------------------------------------------------

  function YearLength(y: int): int
  {
    if IsLeapYear(y) then 366 else 365
  }

  /** Days from 1 January 1970 to 1 January of year y (negative before 1970). */
  function YearStart(y: int): int
    decreases if y >= 1970 then y - 1970 else 1970 - y
  {
    if y == 1970 then 0
    else if y > 1970 then YearStart(y - 1) + YearLength(y - 1)
    else YearStart(y + 1) - YearLength(y)
  }

  lemma YearStartStep(y: int)
    ensures YearStart(y + 1) == YearStart(y) + YearLength(y)
  {
  }

  /** Days of year y before the first of month m (m = 12 gives the whole
      year): a common year's table, plus the leap day from March on. */
  function DaysBeforeMonth(y: int, m: int): int
    requires 0 <= m <= 12
  {
    [0, 31, 59, 90, 120, 151, 181, 212, 243, 273, 304, 334, 365][m] +
    (if m >= 2 && IsLeapYear(y) then 1 else 0)
  }

  lemma DaysBeforeNextMonth(y: int, m: int)
    requires 0 <= m < 12
    ensures DaysBeforeMonth(y, m + 1) == DaysBeforeMonth(y, m) + DaysInMonth(y, m)
  {
  }

  lemma YearIsTwelveMonths(y: int)
    ensures DaysBeforeMonth(y, 12) == YearLength(y)
  {
  }

  /** Days from 1 January 1970 to the date. */
  function DayNumber(d: CivilDate): int
    requires 0 <= d.month < 12
  {
    YearStart(d.year) + DaysBeforeMonth(d.year, d.month) + d.day - 1
  }

  /** Date.prototype.getDay: 0 for Sunday up to 6 for Saturday; 1 January 1970 was a Thursday. */
  function Weekday(d: CivilDate): (w: int)
    requires 0 <= d.month < 12
    ensures 0 <= w < 7
  {
    WeekdayOf(DayNumber(d))
  }

  /** The weekday of the given day number. */
  function WeekdayOf(n: int): int
  {
    (n + 4) % 7
  }

  /** On a month already carried, the Date constructor changes nothing. */
  lemma FirstOfValid(ym: YearMonth)
    requires ValidYearMonth(ym)
    ensures FirstOfMonth(ym) == CivilDate(ym.year, ym.month, 1)
  {
    MonthNumberInjective(AddMonths(ym, 0), ym);
  }

  /** The first of month m + 1 is DaysInMonth(y, m) days after the first of
      month m; for December the next first is 1 January of the next year. */
  lemma NextFirstDayNumber(y: int, m: int)
    requires 0 <= m < 12
    ensures DayNumber(FirstOfMonth(YearMonth(y, m + 1))) ==
            DayNumber(FirstOfMonth(YearMonth(y, m))) + DaysInMonth(y, m)
  {
    FirstOfValid(YearMonth(y, m));
    DaysBeforeNextMonth(y, m);
    if m < 11 {
      FirstOfValid(YearMonth(y, m + 1));
    } else {
      assert FirstOfMonth(YearMonth(y, 12)) == CivilDate(y + 1, 0, 1);
      YearStartStep(y);
      YearIsTwelveMonths(y);
    }
  }

  lemma WeekdayOfShift(n: int, k: int)
    ensures WeekdayOf(n + k) == (WeekdayOf(n) + k) % 7
  {
    var q := (n + 4) / 7;
    assert n + 4 == 7 * q + WeekdayOf(n);
    assert n + k + 4 == 7 * q + (WeekdayOf(n) + k);
  }

  /** The weekday of the first of month m + 1 is that of the first of month m
      advanced by the length of month m (across the year end too). */
  lemma FirstWeekdayStep(y: int, m: int)
    requires 0 <= m < 12
    ensures Weekday(FirstOfMonth(YearMonth(y, m + 1))) ==
            (Weekday(FirstOfMonth(YearMonth(y, m))) + DaysInMonth(y, m)) % 7
  {
    NextFirstDayNumber(y, m);
    WeekdayOfShift(DayNumber(FirstOfMonth(YearMonth(y, m))), DaysInMonth(y, m));
  }
}
