/** The calendar page: the month shown, the cases with a hearing date, the
    month arithmetic behind the previous/next buttons, and the grid of cells
    for the shown month (blank cells up to the weekday of the first, then one
    cell per day holding the hearings of that day). */
module CalendarPage {
  import opened Common
  import opened Dates
  import opened CasesApi

  /** `new Date(year, month + 1, 0).getDate()`. */
  function DaysInMonthOf(year: int, month: int): (n: int)
    requires 0 <= month < 12
    ensures n == DaysInMonth(year, month)
    ensures 28 <= n <= 31
    ensures month == 1 ==> (n == 29 <==> IsLeapYear(year))
  {
    var last := DayZero(YearMonth(year, month + 1));
    MonthNumberInjective(YearMonthOf(last), YearMonth(year, month));
    last.day
  }

  /** `new Date(year, month, 1).getDay()`. */
  function FirstDayOfMonth(year: int, month: int): (w: int)
    ensures 0 <= w < 7
  {
    Weekday(FirstOfMonth(YearMonth(year, month)))
  }

  /** Each month starts the weekday after the previous month's last day. */
  lemma FirstDayOfNextMonth(year: int, month: int)
    requires 0 <= month < 12
    ensures FirstDayOfMonth(year, month + 1) ==
            (FirstDayOfMonth(year, month) + DaysInMonth(year, month)) % 7
  {
    FirstWeekdayStep(year, month);
  }

  /** The previous-month button: the first of the month before. */
  function PrevMonthOf(d: CivilDate): (r: CivilDate)
    ensures ValidDate(r) && r.day == 1
    ensures MonthNumber(YearMonthOf(r)) == MonthNumber(YearMonthOf(d)) - 1
  {
    FirstOfMonth(YearMonth(d.year, d.month - 1))
  }

  /** The next-month button: the first of the month after. */
  function NextMonthOf(d: CivilDate): (r: CivilDate)
    ensures ValidDate(r) && r.day == 1
    ensures MonthNumber(YearMonthOf(r)) == MonthNumber(YearMonthOf(d)) + 1
  {
    FirstOfMonth(YearMonth(d.year, d.month + 1))
  }

  /** Going forward and then back returns to the first of the shown month. */
  lemma PrevAfterNext(d: CivilDate)
    requires ValidDate(d)
    ensures PrevMonthOf(NextMonthOf(d)) == d.(day := 1)
  {
    MonthNumberInjective(YearMonthOf(PrevMonthOf(NextMonthOf(d))), YearMonthOf(d));
  }

  /** Going back and then forward returns to the first of the shown month. */
  lemma NextAfterPrev(d: CivilDate)
    requires ValidDate(d)
    ensures NextMonthOf(PrevMonthOf(d)) == d.(day := 1)
  {
    MonthNumberInjective(YearMonthOf(NextMonthOf(PrevMonthOf(d))), YearMonthOf(d));
  }

  /** December moves to January of the next year, January back to December of the year before. */
  lemma YearWrap(year: int, day: int)
    ensures NextMonthOf(CivilDate(year, 11, day)) == CivilDate(year + 1, 0, 1)
    ensures PrevMonthOf(CivilDate(year, 0, day)) == CivilDate(year - 1, 11, 1)
  {
    MonthNumberInjective(YearMonthOf(NextMonthOf(CivilDate(year, 11, day))), YearMonth(year + 1, 0));
    MonthNumberInjective(YearMonthOf(PrevMonthOf(CivilDate(year, 0, day))), YearMonth(year - 1, 11));
  }

  // ---------------------------------------------------------------------------
  // Events and cells
  // ---------------------------------------------------------------------------

  predicate HasHearing(c: CaseSummary)
  {
    c.nextHearing.Some?
  }

  /** The hearing falls on the given local date. */
  predicate HearsOn(c: CaseSummary, date: CivilDate)
  {
    c.nextHearing.Some? && c.nextHearing.value.local == date
  }

  /** The events shown in the cell of day d of the given month. */
  function DayEvents(events: seq<CaseSummary>, year: int, month: int, d: int): (r: seq<CaseSummary>)
    ensures IsSubsequence(r, events)
    ensures forall e :: e in r <==> e in events && HearsOn(e, CivilDate(year, month, d))
  {
    Filter(events, (e: CaseSummary) => HearsOn(e, CivilDate(year, month, d)))
  }

  /** A case with a hearing in the shown month is listed in the cell of its
      hearing day and in no other cell. */
  lemma EventInItsDayOnly(events: seq<CaseSummary>, e: CaseSummary, year: int, month: int, d: int)
    requires e in events && e.nextHearing.Some?
    requires e.nextHearing.value.local.year == year && e.nextHearing.value.local.month == month
    ensures e in DayEvents(events, year, month, d) <==> d == e.nextHearing.value.local.day
  {
  }

  /** A blank leading cell, or the cell of one day of the month. */
  datatype Cell = Empty(index: nat) | Day(day: int, events: seq<CaseSummary>, isToday: bool)

  /** The cell of day d of the given month, as the grid builds it. */
  function DayCell(events: seq<CaseSummary>, year: int, month: int, d: int, today: CivilDate): Cell
  {
    Day(d, DayEvents(events, year, month, d), today == CivilDate(year, month, d))
  }

  class CalendarState {
    var currentDate: CivilDate
    var events: seq<CaseSummary>
    var loading: bool

    ghost predicate Valid()
      reads this
    {
      ValidDate(currentDate) && forall i :: 0 <= i < |events| ==> HasHearing(events[i])
    }

    /** The page opens on today with no events and the spinner on. */
    constructor(today: CivilDate)
      requires ValidDate(today)
      ensures Valid()
      ensures currentDate == today && events == [] && loading
    {
      currentDate := today;
      events := [];
      loading := true;
    }

    /** `fetchEvents`: the fetched cases with a hearing date become the
        events; a failed fetch leaves them as they were. Either way the
        spinner stops. */
    method FetchEvents(fetched: Option<seq<CaseSummary>>)
      requires Valid()
      modifies this
      ensures Valid()
      ensures currentDate == old(currentDate) && !loading
      ensures events == if fetched.Some? then Filter(fetched.value, HasHearing) else old(events)
    {
      if fetched.Some? {
        events := Filter(fetched.value, HasHearing);
      }
      loading := false;
    }

    method PrevMonth()
      requires Valid()
      modifies this
      ensures Valid()
      ensures currentDate == PrevMonthOf(old(currentDate))
      ensures events == old(events) && loading == old(loading)
    {
      currentDate := PrevMonthOf(currentDate);
    }

    method NextMonth()
      requires Valid()
      modifies this
      ensures Valid()
      ensures currentDate == NextMonthOf(old(currentDate))
      ensures events == old(events) && loading == old(loading)
    {
      currentDate := NextMonthOf(currentDate);
    }

    /** `renderCalendar`: as many blank cells as the weekday of the first of the
        shown month, then the cells of days 1 to the month's length in order. */
    method RenderCalendar(today: CivilDate) returns (cells: seq<Cell>)
      requires Valid()
      ensures var start := FirstDayOfMonth(currentDate.year, currentDate.month);
              var days := DaysInMonthOf(currentDate.year, currentDate.month);
              |cells| == start + days &&
              (forall i :: 0 <= i < start ==> cells[i] == Empty(i)) &&
              (forall j :: start <= j < |cells| ==>
                 cells[j] == DayCell(events, currentDate.year, currentDate.month, j - start + 1, today))
      ensures 28 <= |cells| <= 37
    {
      var year, month := currentDate.year, currentDate.month;
      var days := DaysInMonthOf(year, month);
      var startDay := FirstDayOfMonth(year, month);
      cells := [];
      var i := 0;
      while i < startDay
        invariant 0 <= i <= startDay
        invariant |cells| == i
        invariant forall k :: 0 <= k < i ==> cells[k] == Empty(k)
      {
        cells := cells + [Empty(i)];
        i := i + 1;
      }
      var d := 1;
      while d <= days
        invariant 1 <= d <= days + 1
        invariant |cells| == startDay + d - 1
        invariant forall k :: 0 <= k < startDay ==> cells[k] == Empty(k)
        invariant forall j :: startDay <= j < |cells| ==>
                    cells[j] == DayCell(events, year, month, j - startDay + 1, today)
      {
        cells := cells + [DayCell(events, year, month, d, today)];
        d := d + 1;
      }
    }
  }
}
