/** The `processedData` computation of the React dashboard page
    (react-dashboard/frontend/src/pages/RLGDashboard.jsx): date filters, revenue and hours
    KPIs, the per-staff and per-month accumulations, the cumulative revenue series, the
    last-six-weeks grid and the new-matter counts. JavaScript objects used as dictionaries are
    maps; an object nested two deep is a map keyed by pairs. Dates are calendar days and the
    ISO strings used as keys are day numbers or month keys, whose text order is their
    chronological order. */
module RlgDashboardJs {
  import opened Wrappers
  import opened Calendar
  import opened Sorting
  import opened Aggregate
  import opened DataLoader
  import RlgDashboardPy

  /** `x || 0` on a numeric field: a missing value counts as 0. */
  function OrZero(x: Option<real>): real {
    x.GetOr(0.0)
  }

  /** `staff && ...`: a missing or empty name is falsy. */
  predicate Truthy(s: Option<string>) {
    s.Some? && s.value != ""
  }

  // ---------------------------------------------------------------- filters

  function FilterRevenue(rows: seq<RevenueRow>, start: Date, end: Date): (r: seq<RevenueRow>)
    ensures forall x :: x in r <==> x in rows && InRange(x.date, start, end)
    ensures forall x :: (multiset(r)[x] == if InRange(x.date, start, end) then multiset(rows)[x] else 0)
  {
    var inRange := (x: RevenueRow) => InRange(x.date, start, end);
    FilterMultiset(rows, inRange);
    Filter(rows, inRange)
  }

  function FilterHours(rows: seq<HoursRow>, start: Date, end: Date): (r: seq<HoursRow>)
    ensures forall x :: x in r <==> x in rows && InRange(x.date, start, end)
    ensures forall x :: (multiset(r)[x] == if InRange(x.date, start, end) then multiset(rows)[x] else 0)
  {
    var inRange := (x: HoursRow) => InRange(x.date, start, end);
    FilterMultiset(rows, inRange);
    Filter(rows, inRange)
  }

  // ---------------------------------------------------------------- revenue

  /** `(r.TotalRevShareMonth || 0) + (r.OriginationFees || 0)`. */
  function RowRevenue(v: RevenueRow): real {
    OrZero(v.totalRevShareMonth) + OrZero(v.originationFees)
  }

  function Revenues(rows: seq<RevenueRow>): (r: seq<real>)
    ensures |r| == |rows| && forall i :: 0 <= i < |rows| ==> r[i] == RowRevenue(rows[i])
  {
    if rows == [] then [] else Revenues(rows[..|rows| - 1]) + [RowRevenue(rows[|rows| - 1])]
  }

  /** `totalRevenue`: the `reduce` over every filtered row, whatever its staff. */
  function TotalRevenue(rows: seq<RevenueRow>): real {
    Sum(Revenues(rows))
  }

  /** Where both parts are present the page and the Streamlit dashboard agree on a row's
      revenue; where one is missing the page counts the other while the Streamlit `Total`
      is missing and adds nothing. */
  lemma RowRevenueAgainstPython(v: RevenueRow)
    ensures RlgDashboardPy.RowTotal(v).Some? ==> RowRevenue(v) == RlgDashboardPy.RowTotal(v).value
    ensures RlgDashboardPy.RowTotal(v).None? ==> RowRevenue(v) == OrZero(v.totalRevShareMonth) + OrZero(v.originationFees)
    ensures v.totalRevShareMonth == Some(5.0) && v.originationFees.None? ==>
      RowRevenue(v) == 5.0 && RlgDashboardPy.RowTotal(v).GetOr(0.0) == 0.0
  {
  }

  function RevenueMonths(rows: seq<RevenueRow>): (r: seq<MonthKey>)
    ensures |r| == |rows| && forall i :: 0 <= i < |rows| ==> r[i] == MonthOf(rows[i].date)
  {
    if rows == [] then [] else RevenueMonths(rows[..|rows| - 1]) + [MonthOf(rows[|rows| - 1].date)]
  }

  /** The `revenueByMonth` loop: each row adds its revenue to its month. */
  method RevenueByMonth(rows: seq<RevenueRow>) returns (m: map<MonthKey, real>)
    ensures m == GroupSum(RevenueMonths(rows), Revenues(rows))
  {
    m := map[];
    ghost var keys, vals := RevenueMonths(rows), Revenues(rows);
    for i := 0 to |rows|
      invariant m == GroupSum(keys[..i], vals[..i])
    {
      GroupSumPrefix(keys, vals, i);
      m := AddTo(m, MonthOf(rows[i].date), RowRevenue(rows[i]));
    }
    assert keys[..|rows|] == keys && vals[..|rows|] == vals;
  }

  /** `revenueByStaff` keeps a row when its staff is truthy and on the roster. */
  predicate CountsForStaff(v: RevenueRow, roster: seq<string>) {
    Truthy(v.staff) && v.staff.value in roster
  }

  function StaffRows(rows: seq<RevenueRow>, roster: seq<string>): (r: seq<RevenueRow>)
    ensures forall i :: 0 <= i < |r| ==> CountsForStaff(r[i], roster)
  {
    var r := Filter(rows, (v: RevenueRow) => CountsForStaff(v, roster));
    assert forall i :: 0 <= i < |r| ==> r[i] in r;
    r
  }

  /** The staff name of each row (every row `revenueByStaff` keeps has one). */
  function StaffNames(rows: seq<RevenueRow>): (r: seq<string>)
    ensures |r| == |rows| && forall i :: 0 <= i < |rows| ==> r[i] == rows[i].staff.GetOr("")
  {
    if rows == [] then [] else StaffNames(rows[..|rows| - 1]) + [rows[|rows| - 1].staff.GetOr("")]
  }

  lemma {:induction false} StaffRowsSnoc(rows: seq<RevenueRow>, i: nat, roster: seq<string>)
    requires i < |rows|
    ensures StaffRows(rows[..i + 1], roster)
         == StaffRows(rows[..i], roster) + (if CountsForStaff(rows[i], roster) then [rows[i]] else [])
  {
    assert rows[..i + 1][..i] == rows[..i];
  }

  lemma {:induction false} StaffProjectionsSnoc(kept: seq<RevenueRow>, v: RevenueRow)
    ensures StaffNames(kept + [v]) == StaffNames(kept) + [v.staff.GetOr("")]
    ensures Revenues(kept + [v]) == Revenues(kept) + [RowRevenue(v)]
  {
    assert (kept + [v])[..|kept|] == kept;
  }

  /** The `revenueByStaff` loop: only rows whose staff is truthy and on the roster add their
      revenue, to their staff member. */
  method RevenueByStaff(rows: seq<RevenueRow>, roster: seq<string>) returns (m: map<string, real>)
    ensures m == GroupSum(StaffNames(StaffRows(rows, roster)), Revenues(StaffRows(rows, roster)))
  {
    m := map[];
    for i := 0 to |rows|
      invariant m == StaffTotals(rows[..i], roster)
    {
      var v := rows[i];
      StaffRevenueStep(rows, i, roster);
      if CountsForStaff(v, roster) {
        m := AddTo(m, v.staff.value, RowRevenue(v));
      }
    }
    assert rows[..|rows|] == rows;
  }

  /** The per-staff totals over the rows `revenueByStaff` keeps. */
  function StaffTotals(rows: seq<RevenueRow>, roster: seq<string>): map<string, real> {
    GroupSum(StaffNames(StaffRows(rows, roster)), Revenues(StaffRows(rows, roster)))
  }

  /** One row of the `revenueByStaff` loop, on the specification side. */
  lemma StaffRevenueStep(rows: seq<RevenueRow>, i: nat, roster: seq<string>)
    requires i < |rows|
    ensures var v := rows[i];
      StaffTotals(rows[..i + 1], roster)
        == if CountsForStaff(v, roster) then AddTo(StaffTotals(rows[..i], roster), v.staff.value, RowRevenue(v))
           else StaffTotals(rows[..i], roster)
  {
    var v, kept := rows[i], StaffRows(rows[..i], roster);
    StaffRowsSnoc(rows, i, roster);
    if CountsForStaff(v, roster) {
      assert StaffRows(rows[..i + 1], roster) == kept + [v];
      StaffProjectionsSnoc(kept, v);
      assert v.staff.GetOr("") == v.staff.value;
      GroupSumSnoc(StaffNames(kept), Revenues(kept), v.staff.value, RowRevenue(v));
    } else {
      assert StaffRows(rows[..i + 1], roster) == kept;
    }
  }

  /** The names `revenueByStaff` holds are exactly the truthy roster staff with a row. */
  lemma RevenueByStaffKeys(rows: seq<RevenueRow>, roster: seq<string>, s: string)
    ensures s in GroupSum(StaffNames(StaffRows(rows, roster)), Revenues(StaffRows(rows, roster)))
        <==> s != "" && s in roster && exists i :: 0 <= i < |rows| && rows[i].staff == Some(s)
  {
    var f := StaffRows(rows, roster);
    var names := StaffNames(f);
    if s in names {
      var k :| 0 <= k < |names| && names[k] == s;
      assert f[k] in f;
      var i :| 0 <= i < |rows| && rows[i] == f[k];
    }
    if s != "" && s in roster && exists i :: 0 <= i < |rows| && rows[i].staff == Some(s) {
      var i :| 0 <= i < |rows| && rows[i].staff == Some(s);
      assert rows[i] in rows;
      assert rows[i] in f;
      var k :| 0 <= k < |f| && f[k] == rows[i];
      assert names[k] == s;
    }
  }

  // ------------------------------------------------------------------ hours

  function HoursMonths(rows: seq<HoursRow>): (r: seq<MonthKey>)
    ensures |r| == |rows| && forall i :: 0 <= i < |rows| ==> r[i] == MonthOf(rows[i].date)
  {
    if rows == [] then [] else HoursMonths(rows[..|rows| - 1]) + [MonthOf(rows[|rows| - 1].date)]
  }

  /** `h.BillableHoursAmount || 0` of every row. */
  function HoursAmounts(rows: seq<HoursRow>): (r: seq<real>)
    ensures |r| == |rows| && forall i :: 0 <= i < |rows| ==> r[i] == OrZero(rows[i].amount)
  {
    if rows == [] then [] else HoursAmounts(rows[..|rows| - 1]) + [OrZero(rows[|rows| - 1].amount)]
  }

  /** The `hoursByMonth` loop: every filtered row, whatever its staff, adds to its month. */
  method HoursByMonth(rows: seq<HoursRow>) returns (m: map<MonthKey, real>)
    ensures m == GroupSum(HoursMonths(rows), HoursAmounts(rows))
  {
    m := map[];
    ghost var keys, vals := HoursMonths(rows), HoursAmounts(rows);
    for i := 0 to |rows|
      invariant m == GroupSum(keys[..i], vals[..i])
    {
      GroupSumPrefix(keys, vals, i);
      m := AddTo(m, MonthOf(rows[i].date), OrZero(rows[i].amount));
    }
    assert keys[..|rows|] == keys && vals[..|rows|] == vals;
  }

  /** `months = Object.keys(hoursByMonth).sort()`; `currentMonth` is the last key and
      `priorMonth` the one before it, either missing when there are too few keys. */
  function CurrentAndPriorMonth(months: seq<MonthKey>): (r: (Option<MonthKey>, Option<MonthKey>))
    ensures r.0.None? <==> months == []
    ensures r.0.Some? ==> r.0.value in months && forall k :: k in months && k != r.0.value ==> MonthBefore(k, r.0.value)
    ensures r.1.Some? ==> r.0.Some? && r.1.value in months && MonthBefore(r.1.value, r.0.value)
    ensures r.1.Some? ==> forall k :: k in months && k != r.0.value && k != r.1.value ==> MonthBefore(k, r.1.value)
    ensures r.0.Some? && r.1.None? ==> forall k :: k in months ==> k == r.0.value
  {
    MonthBeforeIsStrictTotal();
    var ms := SortUnique(months, MonthBefore);
    var n := |ms|;
    assert months != [] ==> months[0] in ms;
    if n == 0 then (None, None)
    else
      LastTwoOfSorted(ms);
      (Some(ms[n - 1]), if n >= 2 then Some(ms[n - 2]) else None)
  }

  /** In ascending order the last key follows every other one, and the one before it
      follows every key but the last. */
  lemma LastTwoOfSorted(ms: seq<MonthKey>)
    requires StrictlySorted(ms, MonthBefore) && ms != []
    ensures var n := |ms|;
      && (forall k :: k in ms && k != ms[n - 1] ==> MonthBefore(k, ms[n - 1]))
      && (n >= 2 ==> MonthBefore(ms[n - 2], ms[n - 1]))
      && (n >= 2 ==> forall k :: k in ms && k != ms[n - 1] && k != ms[n - 2] ==> MonthBefore(k, ms[n - 2]))
      && (n == 1 ==> forall k :: k in ms ==> k == ms[0])
  {
    var n := |ms|;
    forall k | k in ms && k != ms[n - 1] ensures MonthBefore(k, ms[n - 1]) {
      var i :| 0 <= i < n && ms[i] == k;
    }
    if n >= 2 {
      forall k | k in ms && k != ms[n - 1] && k != ms[n - 2] ensures MonthBefore(k, ms[n - 2]) {
        var i :| 0 <= i < n && ms[i] == k;
      }
    }
  }

  /** `currentMonthHours` and `priorMonthHours`: `hoursByMonth[month] || 0`. */
  function MonthHoursKpis(rows: seq<HoursRow>): (r: (real, real))
    ensures var cp := CurrentAndPriorMonth(HoursMonths(rows));
      && r.0 == (if cp.0.Some? then SumFor(HoursMonths(rows), HoursAmounts(rows), cp.0.value) else 0.0)
      && r.1 == (if cp.1.Some? then SumFor(HoursMonths(rows), HoursAmounts(rows), cp.1.value) else 0.0)
  {
    var byMonth := GroupSum(HoursMonths(rows), HoursAmounts(rows));
    var cp := CurrentAndPriorMonth(HoursMonths(rows));
    (if cp.0.Some? && cp.0.value in byMonth then byMonth[cp.0.value] else 0.0,
     if cp.1.Some? && cp.1.value in byMonth then byMonth[cp.1.value] else 0.0)
  }

  /** `priorMonth` is the latest earlier month that has hours, not the calendar-previous
      month: with hours only in January and March 2025 it is January. */
  lemma PriorMonthSkipsEmptyMonths()
    ensures CurrentAndPriorMonth([MonthKey(2025, 1), MonthKey(2025, 3)])
         == (Some(MonthKey(2025, 3)), Some(MonthKey(2025, 1)))
    ensures PrevMonth(MonthKey(2025, 3)) == MonthKey(2025, 2)
  {
    var cp := CurrentAndPriorMonth([MonthKey(2025, 1), MonthKey(2025, 3)]);
    assert cp.0.value == MonthKey(2025, 3);
    assert cp.1.value != MonthKey(2025, 3);
  }

  // ------------------------------------------------ month series and cumulative revenue

  /** `Object.entries(byMonth).sort(...)`: the months that occur, ascending (month keys are
      `YYYY-MM` text, whose order is chronological), each with its group total. */
  function MonthSeries(months: seq<MonthKey>, amounts: seq<real>): (r: (seq<MonthKey>, seq<real>))
    requires |months| == |amounts|
    ensures StrictlySorted(r.0, MonthBefore) && Distinct(r.0)
    ensures forall k :: k in r.0 <==> k in months
    ensures |r.1| == |r.0| && forall i :: 0 <= i < |r.0| ==> r.1[i] == SumFor(months, amounts, r.0[i])
  {
    MonthBeforeIsStrictTotal();
    var ms := SortUnique(months, MonthBefore);
    var g := GroupSum(months, amounts);
    (ms, GroupValues(g, ms))
  }

  /** The month series neither loses nor double-counts anything: its totals add up to the
      sum of all amounts. */
  lemma MonthSeriesTotal(months: seq<MonthKey>, amounts: seq<real>)
    requires |months| == |amounts|
    ensures Sum(MonthSeries(months, amounts).1) == Sum(amounts)
  {
    var r := MonthSeries(months, amounts);
    SumGroupValues(months, amounts, r.0);
    assert forall i :: 0 <= i < |months| ==> months[i] in r.0 by {
      forall i | 0 <= i < |months| ensures months[i] in r.0 {
        assert months[i] in months;
      }
    }
    SumOverCoveringKeys(months, amounts, r.0);
  }

  /** `monthlyHoursData`: the months with hours, ascending, with their totals. */
  function MonthlyHoursData(rows: seq<HoursRow>): (r: (seq<MonthKey>, seq<real>))
    ensures r == MonthSeries(HoursMonths(rows), HoursAmounts(rows))
    ensures Sum(r.1) == Sum(HoursAmounts(rows))
  {
    MonthSeriesTotal(HoursMonths(rows), HoursAmounts(rows));
    MonthSeries(HoursMonths(rows), HoursAmounts(rows))
  }

  /** The running totals of `xs`: entry `i` is the sum of the first `i + 1` values. */
  function RunningSums(xs: seq<real>): (r: seq<real>)
    ensures |r| == |xs|
    ensures forall i :: 0 <= i < |xs| ==> r[i] == Sum(xs[..i + 1])
  {
    if xs == [] then []
    else
      var init := xs[..|xs| - 1];
      var r := RunningSums(init) + [Sum(xs)];
      forall i | 0 <= i < |init| ensures r[i] == Sum(xs[..i + 1]) {
        assert init[..i + 1] == xs[..i + 1];
      }
      assert xs[..|xs|] == xs;
      r
  }

  /** `ytdRevenueData`: the months with revenue in ascending order, each with its revenue and
      the running total so far. There is no zero-filling of absent months and nothing is
      zeroed after the last month, so the series ends at the total revenue. */
  method YtdRevenueData(rows: seq<RevenueRow>) returns (months: seq<MonthKey>, revenue: seq<real>, cumulative: seq<real>)
    ensures (months, revenue) == MonthSeries(RevenueMonths(rows), Revenues(rows))
    ensures cumulative == RunningSums(revenue)
    ensures months != [] ==> cumulative[|months| - 1] == TotalRevenue(rows)
  {
    var entries := MonthSeries(RevenueMonths(rows), Revenues(rows));
    months, revenue := entries.0, entries.1;
    cumulative := Accumulate(revenue);
    if months != [] {
      LastRunningSum(revenue);
      MonthSeriesTotal(RevenueMonths(rows), Revenues(rows));
    }
  }

  /** The last running total is the sum of everything. */
  lemma LastRunningSum(xs: seq<real>)
    requires xs != []
    ensures RunningSums(xs)[|xs| - 1] == Sum(xs)
  {
    assert xs[..|xs|] == xs;
  }

  /** `let cumulative = 0; ... cumulative += revenue`: the running total after each entry. */
  method Accumulate(xs: seq<real>) returns (cumulative: seq<real>)
    ensures cumulative == RunningSums(xs)
  {
    cumulative := [];
    var running := 0.0;
    for i := 0 to |xs|
      invariant running == Sum(xs[..i])
      invariant cumulative == RunningSums(xs[..i])
    {
      assert xs[..i + 1][..i] == xs[..i];
      running := running + xs[i];
      cumulative := cumulative + [running];
    }
    assert xs[..|xs|] == xs;
  }

  // ------------------------------------------------------- last six weeks

  /** Going back a whole number of weeks keeps the weekday. */
  lemma WeekdayOfWeeksBefore(w: int, k: int)
    ensures WeekdayOf(w - 7 * k) == WeekdayOf(w)
  {
    assert (w - 7 * k + 6) % 7 == (w + 6) % 7 by {
      assert w - 7 * k + 6 == (w + 6) + 7 * (-k);
    }
  }

  /** The six week keys ending with today's, oldest first. */
  function SixWeeks(today: Date): seq<int> {
    seq(6, k => JsWeekKey(today) - 7 * (5 - k))
  }

  /** `last6Weeks`: for `i` from 5 down to 0, the key of the week `i` weeks before today's,
      built by the same `getDate() - getDay() + 1` step as every other week key. */
  method Last6Weeks(today: Date) returns (weeks: seq<int>)
    ensures weeks == SixWeeks(today)
    ensures |weeks| == 6 && weeks[5] == JsWeekKey(today)
    ensures forall k :: 0 <= k < 5 ==> weeks[k + 1] == weeks[k] + 7
    ensures forall k :: 0 <= k < 6 ==> WeekdayOf(weeks[k]) == 0
  {
    weeks := [];
    var i := 5;
    while i >= 0
      invariant -1 <= i <= 5 && |weeks| == 5 - i
      invariant forall k :: 0 <= k < |weeks| ==> weeks[k] == JsWeekKey(today) - 7 * (5 - k)
      invariant forall k :: 0 <= k < |weeks| ==> WeekdayOf(weeks[k]) == 0
    {
      var monday := JsWeekKey(today) - 7 * i;
      WeekdayOfWeeksBefore(JsWeekKey(today), i);
      weeks := weeks + [monday];
      i := i - 1;
    }
  }

  /** The hours rows whose week key is one of `weeks`. */
  function RecentHours(rows: seq<HoursRow>, weeks: seq<int>): (r: seq<HoursRow>)
    ensures forall x :: x in r <==> x in rows && JsWeekKey(x.date) in weeks
  {
    Filter(rows, (h: HoursRow) => JsWeekKey(h.date) in weeks)
  }

  /** `(monday, StaffAbbreviation)` of every row; a missing name is a key of its own. */
  function WeekStaffKeys(rows: seq<HoursRow>): (r: seq<(int, Option<string>)>)
    ensures |r| == |rows| && forall i :: 0 <= i < |rows| ==> r[i] == (JsWeekKey(rows[i].date), rows[i].staff)
  {
    if rows == [] then [] else WeekStaffKeys(rows[..|rows| - 1]) + [(JsWeekKey(rows[|rows| - 1].date), rows[|rows| - 1].staff)]
  }

  lemma {:induction false} RecentHoursSnoc(rows: seq<HoursRow>, i: nat, weeks: seq<int>)
    requires i < |rows|
    ensures RecentHours(rows[..i + 1], weeks)
         == RecentHours(rows[..i], weeks) + (if JsWeekKey(rows[i].date) in weeks then [rows[i]] else [])
  {
    assert rows[..i + 1][..i] == rows[..i];
  }

  lemma {:induction false} HoursProjectionsSnoc(kept: seq<HoursRow>, h: HoursRow)
    ensures WeekStaffKeys(kept + [h]) == WeekStaffKeys(kept) + [(JsWeekKey(h.date), h.staff)]
    ensures HoursAmounts(kept + [h]) == HoursAmounts(kept) + [OrZero(h.amount)]
  {
    assert (kept + [h])[..|kept|] == kept;
  }

  /** The `weeklyIndividualHours` loop: a row whose week is one of `weeks` adds its hours to
      its (week, staff) cell, whatever its staff; other rows are skipped. */
  method WeeklyIndividualHours(rows: seq<HoursRow>, weeks: seq<int>) returns (m: map<(int, Option<string>), real>)
    ensures m == GroupSum(WeekStaffKeys(RecentHours(rows, weeks)), HoursAmounts(RecentHours(rows, weeks)))
  {
    m := map[];
    ghost var kept: seq<HoursRow> := [];
    ghost var keys: seq<(int, Option<string>)> := [];
    ghost var vals: seq<real> := [];
    for i := 0 to |rows|
      invariant kept == RecentHours(rows[..i], weeks)
      invariant keys == WeekStaffKeys(kept) && vals == HoursAmounts(kept)
      invariant m == GroupSum(keys, vals)
    {
      var h := rows[i];
      var monday := JsWeekKey(h.date);
      WeeklyHoursStep(rows, i, weeks, kept);
      if monday in weeks {
        var amount := OrZero(h.amount);
        GroupSumSnoc(keys, vals, (monday, h.staff), amount);
        m := AddTo(m, (monday, h.staff), amount);
        kept, keys, vals := kept + [h], keys + [(monday, h.staff)], vals + [amount];
      }
    }
    assert rows[..|rows|] == rows;
  }

  /** One row of the `weeklyIndividualHours` loop, on the specification side. */
  lemma WeeklyHoursStep(rows: seq<HoursRow>, i: nat, weeks: seq<int>, kept: seq<HoursRow>)
    requires i < |rows| && kept == RecentHours(rows[..i], weeks)
    ensures var h := rows[i];
      if JsWeekKey(h.date) in weeks then
        && RecentHours(rows[..i + 1], weeks) == kept + [h]
        && WeekStaffKeys(kept + [h]) == WeekStaffKeys(kept) + [(JsWeekKey(h.date), h.staff)]
        && HoursAmounts(kept + [h]) == HoursAmounts(kept) + [OrZero(h.amount)]
      else RecentHours(rows[..i + 1], weeks) == kept
  {
    RecentHoursSnoc(rows, i, weeks);
    HoursProjectionsSnoc(kept, rows[i]);
  }

  /** `weeklyIndividualData`: one entry per week of `weeks`, in order, naming every roster
      staff member and no one else, with their hours that week or 0. */
  function WeeklyIndividualData(weekly: map<(int, Option<string>), real>, weeks: seq<int>, roster: seq<string>)
    : (r: seq<(int, map<string, real>)>)
    ensures |r| == |weeks|
    ensures forall i :: 0 <= i < |weeks| ==> r[i].0 == weeks[i]
    ensures forall i :: 0 <= i < |weeks| ==> forall s :: s in r[i].1 <==> s in roster
    ensures forall i, s :: 0 <= i < |weeks| && s in roster ==>
      r[i].1[s] == (if (weeks[i], Some(s)) in weekly then weekly[(weeks[i], Some(s))] else 0.0)
  {
    seq(|weeks|, i requires 0 <= i < |weeks| =>
      (weeks[i], map s | s in roster :: if (weeks[i], Some(s)) in weekly then weekly[(weeks[i], Some(s))] else 0.0))
  }

  /** Each cell of the grid is the staff member's total hours over the rows of that week. */
  lemma WeeklyGridCells(rows: seq<HoursRow>, weeks: seq<int>, roster: seq<string>, i: int, s: string)
    requires 0 <= i < |weeks| && s in roster
    ensures var keys := WeekStaffKeys(RecentHours(rows, weeks));
      var grid := WeeklyIndividualData(GroupSum(keys, HoursAmounts(RecentHours(rows, weeks))), weeks, roster);
      grid[i].1[s] == SumFor(keys, HoursAmounts(RecentHours(rows, weeks)), (weeks[i], Some(s)))
  {
  }

  // ---------------------------------------------------------------- matters

  /** A slot counts when its staff is truthy and on the roster. */
  predicate SlotCounts(staff: Option<string>, roster: seq<string>) {
    Truthy(staff) && staff.value in roster
  }

  /** The hit of one slot: `(monday, staff)` when the slot counts, nothing otherwise. */
  function SlotHit(staff: Option<string>, week: int, roster: seq<string>): seq<(int, string)> {
    if SlotCounts(staff, roster) then [(week, staff.value)] else []
  }

  /** The `(monday, staff)` pairs one in-range matter contributes: one per counting slot, in
      slot order, so the same staff member in two slots counts twice. */
  function MatterSlotHits(m: MatterRow, week: int, roster: seq<string>): (r: seq<(int, string)>)
    ensures forall i :: 0 <= i < |r| ==> r[i].0 == week
  {
    SlotHit(m.staff1, week, roster) + SlotHit(m.staff2, week, roster) + SlotHit(m.staff3, week, roster)
  }

  /** Every `(monday, staff)` pair the matters loop counts, in order. A matter whose creation
      date did not parse compares false with both ends and is skipped. */
  function MatterHits(ms: seq<MatterRow>, start: Date, end: Date, roster: seq<string>): seq<(int, string)> {
    if ms == [] then []
    else
      var m := ms[|ms| - 1];
      MatterHits(ms[..|ms| - 1], start, end, roster)
      + (if RlgDashboardPy.MatterInRange(m, start, end) then MatterSlotHits(m, JsWeekKey(m.date.value), roster) else [])
  }

  /** The hits of the first `j` of a matter's slots. */
  function SlotHitsUpTo(slots: seq<Option<string>>, j: nat, week: int, roster: seq<string>): seq<(int, string)>
    requires j <= |slots|
  {
    if j == 0 then []
    else
      SlotHitsUpTo(slots, j - 1, week, roster) + SlotHit(slots[j - 1], week, roster)
  }

  lemma SlotHitsStep(hits: seq<(int, string)>, slots: seq<Option<string>>, j: nat, week: int, roster: seq<string>)
    requires j < |slots|
    ensures hits + SlotHitsUpTo(slots, j + 1, week, roster)
         == (hits + SlotHitsUpTo(slots, j, week, roster)) + SlotHit(slots[j], week, roster)
  {
  }

  lemma SlotHitsUpToAll(m: MatterRow, week: int, roster: seq<string>)
    ensures SlotHitsUpTo([m.staff1, m.staff2, m.staff3], 3, week, roster) == MatterSlotHits(m, week, roster)
  {
    var slots := [m.staff1, m.staff2, m.staff3];
    assert SlotHitsUpTo(slots, 1, week, roster) == SlotHit(m.staff1, week, roster);
  }

  /** Counting one more hit adds one to its staff member and to its (week, staff) cell. */
  lemma {:induction false} CountHit(hits: seq<(int, string)>, hit: (int, string))
    ensures GroupCount(Seconds(hits + [hit])) == Increment(GroupCount(Seconds(hits)), hit.1)
    ensures GroupCount(hits + [hit]) == Increment(GroupCount(hits), hit)
  {
    SecondsAppend(hits, [hit]);
    GroupCountSnoc(Seconds(hits), hit.1);
    GroupCountSnoc(hits, hit);
  }

  /** The hits of one matter, added to both counters: `ytdMatters[staff] += 1` and
      `weeklyMatters[monday][staff] += 1` for each counting slot. */
  method CountSlots(ytd: map<string, nat>, weekly: map<(int, string), nat>, m: MatterRow, week: int, roster: seq<string>,
                    ghost hits: seq<(int, string)>)
    returns (ytd': map<string, nat>, weekly': map<(int, string), nat>)
    requires ytd == GroupCount(Seconds(hits)) && weekly == GroupCount(hits)
    ensures ytd' == GroupCount(Seconds(hits + MatterSlotHits(m, week, roster)))
    ensures weekly' == GroupCount(hits + MatterSlotHits(m, week, roster))
  {
    ytd', weekly' := ytd, weekly;
    var slots := [m.staff1, m.staff2, m.staff3];
    ghost var acc := hits;
    for j := 0 to 3
      invariant acc == hits + SlotHitsUpTo(slots, j, week, roster)
      invariant ytd' == GroupCount(Seconds(acc)) && weekly' == GroupCount(acc)
    {
      SlotHitsStep(hits, slots, j, week, roster);
      if SlotCounts(slots[j], roster) {
        var staff := slots[j].value;
        CountHit(acc, (week, staff));
        ytd' := Increment(ytd', staff);
        weekly' := Increment(weekly', (week, staff));
        acc := acc + [(week, staff)];
      }
    }
    SlotHitsUpToAll(m, week, roster);
  }

  lemma {:induction false} MatterHitsSnoc(ms: seq<MatterRow>, i: nat, start: Date, end: Date, roster: seq<string>)
    requires i < |ms|
    ensures MatterHits(ms[..i + 1], start, end, roster)
         == MatterHits(ms[..i], start, end, roster)
            + (if RlgDashboardPy.MatterInRange(ms[i], start, end)
               then MatterSlotHits(ms[i], JsWeekKey(ms[i].date.value), roster) else [])
  {
    assert ms[..i + 1][..i] == ms[..i];
  }

  /** The matters loop: each matter created in range adds one to `ytdMatters` and to
      `weeklyMatters` for every slot holding a truthy roster staff member. */
  method CountMatters(ms: seq<MatterRow>, start: Date, end: Date, roster: seq<string>)
    returns (ytd: map<string, nat>, weekly: map<(int, string), nat>)
    ensures ytd == GroupCount(Seconds(MatterHits(ms, start, end, roster)))
    ensures weekly == GroupCount(MatterHits(ms, start, end, roster))
  {
    ytd, weekly := map[], map[];
    ghost var hits: seq<(int, string)> := [];
    for i := 0 to |ms|
      invariant hits == MatterHits(ms[..i], start, end, roster)
      invariant ytd == GroupCount(Seconds(hits)) && weekly == GroupCount(hits)
    {
      var m := ms[i];
      MatterHitsSnoc(ms, i, start, end, roster);
      if m.date.Some? && InRange(m.date.value, start, end) {
        var week := JsWeekKey(m.date.value);
        ytd, weekly := CountSlots(ytd, weekly, m, week, roster, hits);
        hits := hits + MatterSlotHits(m, week, roster);
      }
    }
    assert ms[..|ms|] == ms;
  }

  /** A matter's hits hold a staff member as often as its slots do, when they are truthy and
      on the roster, and never otherwise. */
  lemma SlotHitCount(staff: Option<string>, week: int, roster: seq<string>, s: string)
    ensures CountFor(Seconds(SlotHit(staff, week, roster)), s)
         == if s != "" && s in roster && staff == Some(s) then 1 else 0
  {
    if SlotCounts(staff, roster) {
      assert Seconds(SlotHit(staff, week, roster)) == [staff.value];
      assert [staff.value][..0] == [];
    }
  }

  /** A matter's hits hold a staff member as often as its slots do, when they are truthy and
      on the roster, and never otherwise. */
  lemma MatterSlotHitsCount(m: MatterRow, week: int, roster: seq<string>, s: string)
    ensures CountFor(Seconds(MatterSlotHits(m, week, roster)), s)
         == if s != "" && s in roster then RlgDashboardPy.SlotHits(m, s) else 0
  {
    var h1, h2, h3 := SlotHit(m.staff1, week, roster), SlotHit(m.staff2, week, roster), SlotHit(m.staff3, week, roster);
    var s1, s2, s3 := Seconds(h1), Seconds(h2), Seconds(h3);
    SecondsAppend(h1 + h2, h3);
    SecondsAppend(h1, h2);
    assert Seconds(MatterSlotHits(m, week, roster)) == s1 + s2 + s3;
    CountForAppend(s1 + s2, s3, s);
    CountForAppend(s1, s2, s);
    SlotHitCount(m.staff1, week, roster, s);
    SlotHitCount(m.staff2, week, roster, s);
    SlotHitCount(m.staff3, week, roster, s);
    assert CountFor(s1 + s2 + s3, s) == CountFor(s1, s) + CountFor(s2, s) + CountFor(s3, s);
  }

  /** The page's year-to-date count of a staff member is the Streamlit count over the matters
      in range, for every truthy roster name; other names are never counted. */
  lemma {:induction false} YtdMattersAgainstPython(ms: seq<MatterRow>, start: Date, end: Date, roster: seq<string>, s: string)
    ensures CountFor(Seconds(MatterHits(ms, start, end, roster)), s)
         == if s != "" && s in roster then RlgDashboardPy.MatterSlotCount(RlgDashboardPy.FilterMatters(ms, start, end), s) else 0
  {
    if ms != [] {
      YtdMattersAgainstPython(ms[..|ms| - 1], start, end, roster, s);
      YtdMattersStep(ms, start, end, roster, s);
    }
  }

  lemma YtdMattersStep(ms: seq<MatterRow>, start: Date, end: Date, roster: seq<string>, s: string)
    requires ms != []
    requires CountFor(Seconds(MatterHits(ms[..|ms| - 1], start, end, roster)), s)
         == if s != "" && s in roster then RlgDashboardPy.MatterSlotCount(RlgDashboardPy.FilterMatters(ms[..|ms| - 1], start, end), s) else 0
    ensures CountFor(Seconds(MatterHits(ms, start, end, roster)), s)
         == if s != "" && s in roster then RlgDashboardPy.MatterSlotCount(RlgDashboardPy.FilterMatters(ms, start, end), s) else 0
  {
    var init, m := ms[..|ms| - 1], ms[|ms| - 1];
    RlgDashboardPy.FilterMattersSnoc(ms, start, end);
    var f := RlgDashboardPy.FilterMatters(init, start, end);
    var before := MatterHits(init, start, end, roster);
    if RlgDashboardPy.MatterInRange(m, start, end) {
      assert RlgDashboardPy.FilterMatters(ms, start, end) == f + [m];
      var hits := MatterSlotHits(m, JsWeekKey(m.date.value), roster);
      assert MatterHits(ms, start, end, roster) == before + hits;
      SecondsAppend(before, hits);
      CountForAppend(Seconds(before), Seconds(hits), s);
      assert CountFor(Seconds(MatterHits(ms, start, end, roster)), s) == CountFor(Seconds(before), s) + CountFor(Seconds(hits), s);
      MatterSlotHitsCount(m, JsWeekKey(m.date.value), roster, s);
      RlgDashboardPy.MatterSlotCountSnoc(f, m, s);
    } else {
      assert RlgDashboardPy.FilterMatters(ms, start, end) == f + [] == f;
      assert MatterHits(ms, start, end, roster) == before + [] == before;
    }
  }

  /** The weeks that have at least one hit, ascending (`Object.entries(weeklyMatters)` sorted
      by its ISO-date keys). */
  function HitWeeks(hits: seq<(int, string)>): (r: seq<int>)
    ensures StrictlySorted(r, IntLess) && Distinct(r)
    ensures forall w :: w in r <==> w in Firsts(hits)
  {
    IntLessIsStrictTotal();
    SortUnique(Firsts(hits), IntLess)
  }

  /** Summing a staff member's weekly counts over the weeks that have hits gives their
      year-to-date count: the weekly table neither loses nor double-counts a hit. */
  lemma WeeklyMattersAddUpToYtd(ms: seq<MatterRow>, start: Date, end: Date, roster: seq<string>, s: string)
    ensures var hits := MatterHits(ms, start, end, roster);
      CountOverFirsts(hits, HitWeeks(hits), s) == CountFor(Seconds(hits), s)
  {
    var hits := MatterHits(ms, start, end, roster);
    forall i | 0 <= i < |hits| ensures hits[i].0 in HitWeeks(hits) {
      assert Firsts(hits)[i] == hits[i].0;
    }
    RollUpCount(hits, HitWeeks(hits), s);
  }

  /** `.slice(-4)` of the sorted weeks: at most four, ascending, and every week with hits
      that is left out comes before all of them. */
  function LatestHitWeeks(hits: seq<(int, string)>): (r: seq<int>)
    ensures |r| <= 4
    ensures forall i, j :: 0 <= i < j < |r| ==> r[i] < r[j]
    ensures forall w :: w in r ==> w in Firsts(hits)
    ensures forall w :: w in Firsts(hits) && w !in r ==> |r| == 4 && forall v :: v in r ==> w < v
  {
    IntLessIsStrictTotal();
    TakeLastOfSorted(HitWeeks(hits), 4, IntLess);
    TakeLast(HitWeeks(hits), 4)
  }

  /** `counts` of one week: the staff members with hits that week, each with their number of
      hits that week. */
  function WeekCounts(hits: seq<(int, string)>, w: int): (r: map<string, nat>)
    ensures forall s :: s in r <==> (w, s) in hits
    ensures forall s :: s in r ==> r[s] == CountFor(hits, (w, s))
  {
    var weekly := GroupCount(hits);
    var r := map s | s in Seconds(hits) && (w, s) in weekly :: weekly[(w, s)];
    forall s | (w, s) in hits ensures s in r {
      var k :| 0 <= k < |hits| && hits[k] == (w, s);
      assert Seconds(hits)[k] == s;
    }
    r
  }

  /** `weeklyMattersData`: the latest weeks with hits, each with its counts. */
  function WeeklyMattersData(hits: seq<(int, string)>): (r: seq<(int, map<string, nat>)>)
    ensures |r| == |LatestHitWeeks(hits)|
    ensures forall i :: 0 <= i < |r| ==> r[i] == (LatestHitWeeks(hits)[i], WeekCounts(hits, LatestHitWeeks(hits)[i]))
  {
    var weeks := LatestHitWeeks(hits);
    seq(|weeks|, i requires 0 <= i < |weeks| => (weeks[i], WeekCounts(hits, weeks[i])))
  }

  // ------------------------------------------------------------ processedData

  /** The figures the page draws. Object-valued results (`revenueByStaffData`,
      `ytdMattersData`) are kept as the maps they are built from. */
  datatype Processed = Processed(
    totalRevenue: real,
    currentMonthHours: real,
    priorMonthHours: real,
    revenueByStaff: map<string, real>,
    ytdMonths: seq<MonthKey>,
    ytdRevenue: seq<real>,
    ytdCumulative: seq<real>,
    monthlyHours: (seq<MonthKey>, seq<real>),
    weeklyIndividual: seq<(int, map<string, real>)>,
    ytdMatters: map<string, nat>,
    weeklyMatters: seq<(int, map<string, nat>)>)

  /** The `processedData` memo. It is `null` when the revenue table, the hours table or the
      settings are missing; otherwise every figure is computed from the rows in the inclusive
      date range, the roster (`custom_staff_list`) and today's date. */
  method ProcessedData(revenue: Option<seq<RevenueRow>>, hours: Option<seq<HoursRow>>, matters: seq<MatterRow>,
                       roster: Option<seq<string>>, start: Date, end: Date, today: Date)
    returns (r: Option<Processed>)
    ensures r.None? <==> revenue.None? || hours.None? || roster.None?
    ensures r.Some? ==>
      var rev := FilterRevenue(revenue.value, start, end);
      var hrs := FilterHours(hours.value, start, end);
      var hits := MatterHits(matters, start, end, roster.value);
      && r.value.totalRevenue == TotalRevenue(rev)
      && (r.value.currentMonthHours, r.value.priorMonthHours) == MonthHoursKpis(hrs)
      && r.value.revenueByStaff == GroupSum(StaffNames(StaffRows(rev, roster.value)), Revenues(StaffRows(rev, roster.value)))
      && (r.value.ytdMonths, r.value.ytdRevenue) == MonthSeries(RevenueMonths(rev), Revenues(rev))
      && r.value.ytdCumulative == RunningSums(r.value.ytdRevenue)
      && r.value.monthlyHours == MonthlyHoursData(hrs)
      && r.value.weeklyIndividual
           == WeeklyIndividualData(GroupSum(WeekStaffKeys(RecentHours(hrs, SixWeeks(today))),
                                            HoursAmounts(RecentHours(hrs, SixWeeks(today)))),
                                   SixWeeks(today), roster.value)
      && r.value.ytdMatters == GroupCount(Seconds(hits))
      && r.value.weeklyMatters == WeeklyMattersData(hits)
  {
    if revenue.None? || hours.None? || roster.None? {
      return None;
    }
    var rev := FilterRevenue(revenue.value, start, end);
    var hrs := FilterHours(hours.value, start, end);
    var total := TotalRevenue(rev);
    var kpis := MonthHoursKpis(hrs);
    var byStaff := RevenueByStaff(rev, roster.value);
    var months, monthRevenue, cumulative := YtdRevenueData(rev);
    var weeks := Last6Weeks(today);
    var weekly := WeeklyIndividualHours(hrs, weeks);
    var grid := WeeklyIndividualData(weekly, weeks, roster.value);
    var ytd, weeklyMatters := CountMatters(matters, start, end, roster.value);
    var hits := MatterHits(matters, start, end, roster.value);
    r := Some(Processed(total, kpis.0, kpis.1, byStaff, months, monthRevenue, cumulative,
                        MonthlyHoursData(hrs), grid, ytd, WeeklyMattersData(hits)));
  }
}
