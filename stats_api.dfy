/** The `/api/stats` route behind the dashboard: counts of the signed-in user's
    active and pending cases and of their clients, the sum of their case values,
    and two six-month charts (cases opened and value opened per month). The six
    months are found by calling setMonth on today's date, so on the 29th to the
    31st a month can appear twice and another not at all. */
module StatsApi {
  import opened Common
  import opened Dates
  import opened Schemas
  import opened Store

  const MonthNames: seq<string> :=
    ["Jan", "Feb", "Mar", "Apr", "May", "Jun", "Jul", "Aug", "Sep", "Oct", "Nov", "Dec"]

  /** One entry of `last6Months`: a 0-based month, its short name and its year. */
  datatype MonthSlot = MonthSlot(index: int, name: string, year: int)

  datatype Point = Point(name: string, value: int)

  datatype Stats = Stats(activeCases: nat, totalClients: nat, pendingActions: nat,
                         revenueYTD: int, monthlyData: seq<Point>, revenueData: seq<Point>)

  /** `status: { $in: ['Open', 'In Progress'] }`. */
  predicate IsActiveCase(c: Case)
    ensures IsActiveCase(c) <==> c.status in CaseStatuses && c.status != "Closed" && c.status != "On Hold"
  {
    c.status == "Open" || c.status == "In Progress"
  }

  /** `priority: 'High', status: { $ne: 'Closed' }`. */
  predicate IsPendingCase(c: Case)
    ensures IsPendingCase(c) <==>
              c.priority == "High" && (IsActiveCase(c) || c.status == "On Hold" || c.status !in CaseStatuses)
  {
    c.priority == "High" && c.status != "Closed"
  }

  /** The sum of the case values (`acc + (curr.value || 0)`; a stored value is never missing here). */
  function Revenue(cases: seq<Case>): (r: int)
    ensures (forall i :: 0 <= i < |cases| ==> cases[i].value >= 0) ==> r >= 0
    ensures (forall i :: 0 <= i < |cases| ==> cases[i].value == 0) ==> r == 0
  {
    if cases == [] then 0 else cases[0].value + Revenue(cases[1..])
  }

  lemma {:induction false} RevenueAppend(s: seq<Case>, t: seq<Case>)
    ensures Revenue(s + t) == Revenue(s) + Revenue(t)
  {
    if s == [] {
      assert s + t == t;
    } else {
      assert (s + t)[1..] == s[1..] + t;
      RevenueAppend(s[1..], t);
    }
  }

  // ---------------------------------------------------------------------------
  // The six-month window
  // ---------------------------------------------------------------------------

  function SlotOf(d: CivilDate): MonthSlot
    requires ValidDate(d)
  {
    MonthSlot(d.month, MonthNames[d.month], d.year)
  }

  function SlotNumber(s: MonthSlot): int
  {
    s.year * 12 + s.index
  }

  /** Entry k of the window (pushed when i = 5 - k): today's date with its month set to currentMonth - i. */
  function Slot(today: CivilDate, k: int): (s: MonthSlot)
    requires ValidDate(today)
    ensures 0 <= s.index < 12 && s.name == MonthNames[s.index]
  {
    SlotOf(SetMonth(today, today.month - (5 - k)))
  }

  /** What the loop pushes, oldest first. */
  function Window(today: CivilDate): (w: seq<MonthSlot>)
    requires ValidDate(today)
    ensures |w| == 6
    ensures forall k :: 0 <= k < 6 ==> w[k] == Slot(today, k)
  {
    seq(6, k requires 0 <= k < 6 => Slot(today, k))
  }

  /** The slot pushed when the loop counter is i is entry 5 - i of the window. */
  lemma SlotPushed(today: CivilDate, i: int)
    requires ValidDate(today)
    ensures SlotOf(SetMonth(today, today.month - i)) == Slot(today, 5 - i)
  {
    assert today.month - (5 - (5 - i)) == today.month - i;
  }

  /** The loop building `last6Months`. */
  method LastSixMonths(today: CivilDate) returns (slots: seq<MonthSlot>)
    requires ValidDate(today)
    ensures slots == Window(today)
    ensures slots[5] == SlotOf(today)
    ensures forall k :: 0 <= k < 5 ==> SlotNumber(slots[k]) <= SlotNumber(slots[k + 1])
  {
    slots := [];
    var i := 5;
    while i >= 0
      invariant -1 <= i <= 5
      invariant |slots| == 5 - i
      invariant forall k :: 0 <= k < |slots| ==> slots[k] == Slot(today, k)
    {
      var d := SetMonth(today, today.month - i);
      SlotPushed(today, i);
      assert SlotOf(d) == Slot(today, |slots|);
      slots := slots + [SlotOf(d)];
      i := i - 1;
    }
    assert |slots| == 6;
    assert slots == Window(today);
    WindowEndsToday(today);
    WindowNonDecreasing(today);
  }

  /** The last slot is the current month. */
  lemma WindowEndsToday(today: CivilDate)
    requires ValidDate(today)
    ensures Window(today)[5] == SlotOf(today)
  {
    SetMonthSame(today);
  }

  /** The slots never go back in time. */
  lemma WindowNonDecreasing(today: CivilDate)
    requires ValidDate(today)
    ensures forall k :: 0 <= k < 5 ==> SlotNumber(Window(today)[k]) <= SlotNumber(Window(today)[k + 1])
  {
    forall k | 0 <= k < 5
      ensures SlotNumber(Window(today)[k]) <= SlotNumber(Window(today)[k + 1])
    {
      SlotStep(today, k);
    }
  }

  /** Consecutive slots are at most one month apart in the wanted months, so never decrease. */
  lemma SlotStep(today: CivilDate, k: int)
    requires ValidDate(today)
    ensures SlotNumber(Slot(today, k)) <= SlotNumber(Slot(today, k + 1))
  {
    SetMonthLands(today, today.month - (5 - k));
    SetMonthLands(today, today.month - (5 - (k + 1)));
  }

  /** On days 1 to 28 the slots are the current month and the five before it, in order. */
  lemma WindowEarlyInMonth(today: CivilDate)
    requires ValidDate(today) && today.day <= 28
    ensures forall k :: 0 <= k < 6 ==>
              SlotNumber(Window(today)[k]) == MonthNumber(YearMonthOf(today)) - 5 + k
  {
    forall k | 0 <= k < 6 {
      SetMonthLands(today, today.month - (5 - k));
    }
  }

  /** setMonth on 31 October 2026 for May to July: June has no 31st. */
  lemma SetMonthsOnOctoberThirtyFirstA()
    ensures var t := CivilDate(2026, 9, 31);
            SetMonth(t, 4) == CivilDate(2026, 4, 31) && SetMonth(t, 5) == CivilDate(2026, 6, 1) &&
            SetMonth(t, 6) == CivilDate(2026, 6, 31)
  {
  }

  /** setMonth on 31 October 2026 for August to October: September has no 31st. */
  lemma SetMonthsOnOctoberThirtyFirstB()
    ensures var t := CivilDate(2026, 9, 31);
            SetMonth(t, 7) == CivilDate(2026, 7, 31) && SetMonth(t, 8) == CivilDate(2026, 9, 1) &&
            SetMonth(t, 9) == t
  {
  }

  /** On 31 October the window is May, Jul, Jul, Aug, Oct, Oct: June and September are missing. */
  lemma WindowOnOctoberThirtyFirst()
    ensures var w := Window(CivilDate(2026, 9, 31));
            w[0].index == 4 && w[1].index == 6 && w[2].index == 6 &&
            w[3].index == 7 && w[4].index == 9 && w[5].index == 9 &&
            w[0].year == w[1].year == w[2].year == w[3].year == w[4].year == w[5].year == 2026
  {
    var t := CivilDate(2026, 9, 31);
    SetMonthsOnOctoberThirtyFirstA();
    SetMonthsOnOctoberThirtyFirstB();
    assert Slot(t, 0) == SlotOf(SetMonth(t, 4));
    assert Slot(t, 1) == SlotOf(SetMonth(t, 5));
    assert Slot(t, 2) == SlotOf(SetMonth(t, 6));
    assert Slot(t, 3) == SlotOf(SetMonth(t, 7));
    assert Slot(t, 4) == SlotOf(SetMonth(t, 8));
    assert Slot(t, 5) == SlotOf(SetMonth(t, 9));
  }

  // ---------------------------------------------------------------------------
  // Charts
  // ---------------------------------------------------------------------------

  /** The chart filter: the case started in the slot's month and year. */
  predicate StartsIn(c: Case, m: MonthSlot)
  {
    c.startDate.local.month == m.index && c.startDate.local.year == m.year
  }

  /** The cases a bar of either chart covers: those started in the slot, in order. */
  function InSlot(cases: seq<Case>, m: MonthSlot): (r: seq<Case>)
    ensures IsSubsequence(r, cases)
    ensures forall i :: 0 <= i < |r| ==> StartsIn(r[i], m)
    ensures forall i :: 0 <= i < |cases| && StartsIn(cases[i], m) ==> cases[i] in r
  {
    Filter(cases, (c: Case) => StartsIn(c, m))
  }

  function MonthlyData(cases: seq<Case>, w: seq<MonthSlot>): (r: seq<Point>)
    ensures |r| == |w|
    ensures forall k :: 0 <= k < |w| ==> r[k].name == w[k].name
  {
    seq(|w|, k requires 0 <= k < |w| => Point(w[k].name, |InSlot(cases, w[k])|))
  }

  function RevenueData(cases: seq<Case>, w: seq<MonthSlot>): (r: seq<Point>)
    ensures |r| == |w|
    ensures forall k :: 0 <= k < |w| ==> r[k].name == w[k].name
  {
    seq(|w|, k requires 0 <= k < |w| => Point(w[k].name, Revenue(InSlot(cases, w[k]))))
  }

  /** Bar k of the case chart is labelled with slot k's name and counts the cases
      started in that slot; bar k of the revenue chart has the same label and
      sums the values of those same cases, so a month without cases has no
      revenue. */
  lemma ChartBucket(cases: seq<Case>, w: seq<MonthSlot>, k: int)
    requires 0 <= k < |w|
    ensures MonthlyData(cases, w)[k] == Point(w[k].name, Count(cases, (c: Case) => StartsIn(c, w[k])))
    ensures MonthlyData(cases, w)[k].value == |InSlot(cases, w[k])|
    ensures RevenueData(cases, w)[k] == Point(w[k].name, Revenue(InSlot(cases, w[k])))
    ensures RevenueData(cases, w)[k].name == MonthlyData(cases, w)[k].name
    ensures MonthlyData(cases, w)[k].value == 0 ==> RevenueData(cases, w)[k].value == 0
  {
    FilterLengthIsCount(cases, (c: Case) => StartsIn(c, w[k]));
  }

  /** A user without cases sees zero counts, zero revenue and empty bars. */
  lemma NoCasesNoFigures(w: seq<MonthSlot>)
    ensures Count([], IsActiveCase) == 0 && Count([], IsPendingCase) == 0 && Revenue([]) == 0
    ensures forall k :: 0 <= k < |w| ==> MonthlyData([], w)[k].value == 0 && RevenueData([], w)[k].value == 0
  {
  }

  function SumValues(ps: seq<Point>): int
  {
    if ps == [] then 0 else ps[0].value + SumValues(ps[1..])
  }

  /** In how many slots of w a case is counted. */
  function Hits(c: Case, w: seq<MonthSlot>): nat
  {
    if w == [] then 0 else (if StartsIn(c, w[0]) then 1 else 0) + Hits(c, w[1..])
  }

  function TotalHits(cases: seq<Case>, w: seq<MonthSlot>): nat
  {
    if cases == [] then 0 else Hits(cases[0], w) + TotalHits(cases[1..], w)
  }

  /** No two slots name the same month of the same year. */
  predicate SlotsDistinct(w: seq<MonthSlot>)
  {
    forall i, j :: 0 <= i < j < |w| ==> w[i].index != w[j].index || w[i].year != w[j].year
  }

  lemma {:induction false} TotalHitsSplit(cases: seq<Case>, w: seq<MonthSlot>)
    requires w != []
    ensures TotalHits(cases, w) == |InSlot(cases, w[0])| + TotalHits(cases, w[1..])
  {
    FilterLengthIsCount(cases, (c: Case) => StartsIn(c, w[0]));
    if cases != [] {
      TotalHitsSplit(cases[1..], w);
      FilterLengthIsCount(cases[1..], (c: Case) => StartsIn(c, w[0]));
    }
  }

  /** The bars of the case chart add up to the number of (case, slot) matches. */
  lemma {:induction false} ChartTotal(cases: seq<Case>, w: seq<MonthSlot>)
    ensures SumValues(MonthlyData(cases, w)) == TotalHits(cases, w)
    decreases |w|
  {
    if w == [] {
      TotalHitsZero(cases, w);
    } else {
      assert MonthlyData(cases, w)[1..] == MonthlyData(cases, w[1..]);
      ChartTotal(cases, w[1..]);
      TotalHitsSplit(cases, w);
    }
  }

  lemma {:induction false} TotalHitsZero(cases: seq<Case>, w: seq<MonthSlot>)
    requires w == []
    ensures TotalHits(cases, w) == 0
  {
    if cases != [] {
      TotalHitsZero(cases[1..], w);
    }
  }

  lemma {:induction false} HitsNone(c: Case, w: seq<MonthSlot>)
    requires forall k :: 0 <= k < |w| ==> !StartsIn(c, w[k])
    ensures Hits(c, w) == 0
  {
    if w != [] {
      HitsNone(c, w[1..]);
    }
  }

  /** With distinct slots a case is counted at most once. */
  lemma {:induction false} HitsAtMostOne(c: Case, w: seq<MonthSlot>)
    requires SlotsDistinct(w)
    ensures Hits(c, w) <= 1
  {
    if w != [] {
      if StartsIn(c, w[0]) {
        forall k | 0 <= k < |w[1..]|
          ensures !StartsIn(c, w[1..][k])
        {
          assert w[1..][k] == w[k + 1];
        }
        HitsNone(c, w[1..]);
      } else {
        HitsAtMostOne(c, w[1..]);
      }
    }
  }

  lemma {:induction false} TotalHitsBound(cases: seq<Case>, w: seq<MonthSlot>)
    requires SlotsDistinct(w)
    ensures TotalHits(cases, w) <= |cases|
  {
    if cases != [] {
      HitsAtMostOne(cases[0], w);
      TotalHitsBound(cases[1..], w);
    }
  }

  /** On days 1 to 28 the case chart counts every case at most once. */
  /** On days 1 to 28 the window names six different months. */
  lemma WindowSlotsDistinct(today: CivilDate)
    requires ValidDate(today) && today.day <= 28
    ensures SlotsDistinct(Window(today))
  {
    var w := Window(today);
    WindowEarlyInMonth(today);
    forall i, j | 0 <= i < j < 6
      ensures w[i].index != w[j].index || w[i].year != w[j].year
    {
      assert SlotNumber(w[i]) != SlotNumber(w[j]);
    }
  }

  lemma ChartCountsBounded(cases: seq<Case>, today: CivilDate)
    requires ValidDate(today) && today.day <= 28
    ensures SumValues(MonthlyData(cases, Window(today))) <= |cases|
  {
    var w := Window(today);
    WindowSlotsDistinct(today);
    ChartTotal(cases, w);
    TotalHitsBound(cases, w);
  }

  /** The value a case adds to the revenue chart over w: its value once per slot it starts in. */
  function CaseValueHits(c: Case, w: seq<MonthSlot>): int
  {
    if w == [] then 0 else (if StartsIn(c, w[0]) then c.value else 0) + CaseValueHits(c, w[1..])
  }

  function ValueHits(cases: seq<Case>, w: seq<MonthSlot>): int
  {
    if cases == [] then 0 else CaseValueHits(cases[0], w) + ValueHits(cases[1..], w)
  }

  /** The case started in some month of the window. */
  predicate InWindow(c: Case, w: seq<MonthSlot>)
  {
    exists k :: 0 <= k < |w| && StartsIn(c, w[k])
  }

  /** The cases started in some month of the window, in order. */
  function InWindowCases(cases: seq<Case>, w: seq<MonthSlot>): (r: seq<Case>)
    ensures IsSubsequence(r, cases)
    ensures forall i :: 0 <= i < |r| ==> InWindow(r[i], w)
    ensures forall i :: 0 <= i < |cases| && InWindow(cases[i], w) ==> cases[i] in r
  {
    Filter(cases, (c: Case) => InWindow(c, w))
  }

  lemma {:induction false} ValueHitsZero(cases: seq<Case>, w: seq<MonthSlot>)
    requires w == []
    ensures ValueHits(cases, w) == 0
  {
    if cases != [] {
      ValueHitsZero(cases[1..], w);
    }
  }

  lemma {:induction false} ValueHitsSplit(cases: seq<Case>, w: seq<MonthSlot>)
    requires w != []
    ensures ValueHits(cases, w) == Revenue(InSlot(cases, w[0])) + ValueHits(cases, w[1..])
  {
    if cases != [] {
      ValueHitsSplit(cases[1..], w);
      if StartsIn(cases[0], w[0]) {
        assert InSlot(cases, w[0]) == [cases[0]] + InSlot(cases[1..], w[0]);
        assert ([cases[0]] + InSlot(cases[1..], w[0]))[1..] == InSlot(cases[1..], w[0]);
      } else {
        assert InSlot(cases, w[0]) == InSlot(cases[1..], w[0]);
      }
    }
  }

  /** The bars of the revenue chart add up to every case's value times the
      number of slots it starts in. */
  lemma {:induction false} RevenueChartTotal(cases: seq<Case>, w: seq<MonthSlot>)
    ensures SumValues(RevenueData(cases, w)) == ValueHits(cases, w)
    decreases |w|
  {
    if w == [] {
      ValueHitsZero(cases, w);
    } else {
      assert RevenueData(cases, w)[1..] == RevenueData(cases, w[1..]);
      RevenueChartTotal(cases, w[1..]);
      ValueHitsSplit(cases, w);
    }
  }

  lemma {:induction false} CaseValueHitsNone(c: Case, w: seq<MonthSlot>)
    requires !InWindow(c, w)
    ensures CaseValueHits(c, w) == 0
  {
    if w != [] {
      assert !StartsIn(c, w[0]);
      forall k | 0 <= k < |w[1..]|
        ensures !StartsIn(c, w[1..][k])
      {
        assert w[1..][k] == w[k + 1];
      }
      CaseValueHitsNone(c, w[1..]);
    }
  }

  /** With distinct slots a case adds its value once if it started in the window, nothing otherwise. */
  lemma {:induction false} CaseValueHitsDistinct(c: Case, w: seq<MonthSlot>)
    requires SlotsDistinct(w)
    ensures CaseValueHits(c, w) == (if InWindow(c, w) then c.value else 0)
  {
    if w == [] {
    } else if StartsIn(c, w[0]) {
      assert InWindow(c, w);
      forall k | 0 <= k < |w[1..]|
        ensures !StartsIn(c, w[1..][k])
      {
        assert w[1..][k] == w[k + 1];
      }
      CaseValueHitsNone(c, w[1..]);
    } else {
      assert SlotsDistinct(w[1..]) by {
        forall i, j | 0 <= i < j < |w[1..]|
          ensures w[1..][i].index != w[1..][j].index || w[1..][i].year != w[1..][j].year
        {
          assert w[1..][i] == w[i + 1] && w[1..][j] == w[j + 1];
        }
      }
      CaseValueHitsDistinct(c, w[1..]);
      if InWindow(c, w) {
        var k :| 0 <= k < |w| && StartsIn(c, w[k]);
        assert w[1..][k - 1] == w[k];
      }
      if InWindow(c, w[1..]) {
        var k :| 0 <= k < |w[1..]| && StartsIn(c, w[1..][k]);
        assert w[1..][k] == w[k + 1];
      }
    }
  }

  lemma {:induction false} ValueHitsInWindow(cases: seq<Case>, w: seq<MonthSlot>)
    requires SlotsDistinct(w)
    ensures ValueHits(cases, w) == Revenue(InWindowCases(cases, w))
  {
    if cases != [] {
      ValueHitsInWindow(cases[1..], w);
      CaseValueHitsDistinct(cases[0], w);
      if InWindow(cases[0], w) {
        assert InWindowCases(cases, w) == [cases[0]] + InWindowCases(cases[1..], w);
        assert ([cases[0]] + InWindowCases(cases[1..], w))[1..] == InWindowCases(cases[1..], w);
      } else {
        assert InWindowCases(cases, w) == InWindowCases(cases[1..], w);
      }
    }
  }

  /** On days 1 to 28 the revenue chart adds up to the value sum of exactly the
      cases started in the six months of the window. */
  lemma RevenueChartWindow(cases: seq<Case>, today: CivilDate)
    requires ValidDate(today) && today.day <= 28
    ensures SumValues(RevenueData(cases, Window(today))) == Revenue(InWindowCases(cases, Window(today)))
  {
    WindowSlotsDistinct(today);
    RevenueChartTotal(cases, Window(today));
    ValueHitsInWindow(cases, Window(today));
  }

  lemma HitsUnfold(c: Case, w: seq<MonthSlot>, k: int)
    requires 0 <= k < |w|
    ensures Hits(c, w[k..]) == (if StartsIn(c, w[k]) then 1 else 0) + Hits(c, w[k + 1..])
  {
    assert w[k..][1..] == w[k + 1..];
  }

  /** The case chart of a single case adds up to the number of slots it falls in. */
  lemma ChartOfOne(c: Case, w: seq<MonthSlot>)
    ensures SumValues(MonthlyData([c], w)) == Hits(c, w)
  {
    ChartTotal([c], w);
    assert [c][1..] == [];
    assert TotalHits([c][1..], w) == 0;
  }

  /** A July case meets the slots May, Jul, Jul, Aug, Oct, Oct of its year twice. */
  lemma HitsOfJulyCase(c: Case, w: seq<MonthSlot>)
    requires c.startDate.local.month == 6
    requires |w| == 6 && w[0].index == 4 && w[1].index == 6 && w[2].index == 6 &&
             w[3].index == 7 && w[4].index == 9 && w[5].index == 9
    requires w[1].year == w[2].year == c.startDate.local.year
    ensures Hits(c, w) == 2
  {
    assert w[6..] == [] && w[0..] == w;
    HitsUnfold(c, w, 5);
    HitsUnfold(c, w, 4);
    HitsUnfold(c, w, 3);
    HitsUnfold(c, w, 2);
    HitsUnfold(c, w, 1);
    HitsUnfold(c, w, 0);
  }

  /** On 31 October a single case opened in July shows up twice in the case chart. */
  lemma JulyCaseCountedTwice(c: Case, today: CivilDate)
    requires today == CivilDate(2026, 9, 31)
    requires c.startDate.local.month == 6 && c.startDate.local.year == 2026
    ensures SumValues(MonthlyData([c], Window(today))) == 2
  {
    var w := Window(today);
    ChartOfOne(c, w);
    WindowOnOctoberThirtyFirst();
    HitsOfJulyCase(c, w);
  }

  // ---------------------------------------------------------------------------
  // The handler
  // ---------------------------------------------------------------------------

  /** A new case with the default status counts as active, and its value joins the revenue. */
  lemma {:induction false} NewCaseCounted(cases: seq<Case>, c: Case, uid: Id)
    requires c.userId == uid && c.status == "Open"
    ensures Count(CasesOf(cases + [c], uid), IsActiveCase) == Count(CasesOf(cases, uid), IsActiveCase) + 1
    ensures Revenue(CasesOf(cases + [c], uid)) == Revenue(CasesOf(cases, uid)) + c.value
  {
    CasesOfAppend(cases, c, uid);
    CountAppend(CasesOf(cases, uid), [c], IsActiveCase);
    RevenueAppend(CasesOf(cases, uid), [c]);
    assert [c][1..] == [];
  }

  /** GET: the figures for the signed-in user, with the charts over Window(today). */
  method GetStats(db: Db, session: Option<Id>, today: CivilDate) returns (r: Response<Stats>)
    requires ValidDate(today)
    ensures session.None? ==> r == Message(401, "Unauthorized")
    ensures session.Some? ==> r.Ok? && r.status == 200
    ensures session.Some? ==>
      var owned := CasesOf(db.cases, session.value);
      var w := Window(today);
      r.body == Stats(Count(owned, IsActiveCase), |ClientsOf(db.clients, session.value)|,
                      Count(owned, IsPendingCase), Revenue(owned),
                      MonthlyData(owned, w), RevenueData(owned, w))
    ensures r.Ok? ==> r.body.activeCases <= |CasesOf(db.cases, session.value)| &&
                      r.body.pendingActions <= |CasesOf(db.cases, session.value)| &&
                      |r.body.monthlyData| == 6 && |r.body.revenueData| == 6 &&
                      r.body.monthlyData[5].name == MonthNames[today.month]
  {
    if session.None? {
      return Message(401, "Unauthorized");
    }
    var uid := session.value;
    var owned := CasesOf(db.cases, uid);
    var slots := LastSixMonths(today);
    r := Ok(200, Stats(Count(owned, IsActiveCase), |ClientsOf(db.clients, uid)|,
                       Count(owned, IsPendingCase), Revenue(owned),
                       MonthlyData(owned, slots), RevenueData(owned, slots)));
  }
}
