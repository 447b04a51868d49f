/** The data steps of the Streamlit dashboard page, `run_rlg_dashboard`
    (Tabs/RLGDashboard.py): date-range and roster filters, monthly and weekly group-by sums,
    the year-to-date cumulative revenue series, the recent-weeks window, new-matter counts and
    the prebills matrix. Charts and widgets are outside the model; the session values the page
    reads (thresholds and roster) are parameters. */
module RlgDashboardPy {
  import opened Wrappers
  import opened Calendar
  import opened Sorting
  import opened Aggregate
  import opened DataLoader

  // ---------------------------------------------------------------- filters

  /** `Series.isin(custom_staff_list)`: a missing staff value is never on the roster. */
  predicate OnRoster(staff: Option<string>, roster: seq<string>) {
    staff.Some? && staff.value in roster
  }

  /** `filtered_revenue`: the revenue rows in the date range whose staff is on the roster. */
  function FilterRevenue(rows: seq<RevenueRow>, start: Date, end: Date, roster: seq<string>)
    : (r: seq<RevenueRow>)
    ensures forall x :: x in r <==> x in rows && InRange(x.date, start, end) && OnRoster(x.staff, roster)
    ensures forall x ::
      (multiset(r)[x] == if InRange(x.date, start, end) && OnRoster(x.staff, roster) then multiset(rows)[x] else 0)
  {
    var inRange := (x: RevenueRow) => InRange(x.date, start, end);
    var onRoster := (x: RevenueRow) => OnRoster(x.staff, roster);
    FilterMultiset(rows, inRange);
    FilterMultiset(Filter(rows, inRange), onRoster);
    Filter(Filter(rows, inRange), onRoster)
  }

  /** `filtered_team_hours`: the hours rows in the date range whose staff is on the roster. */
  function FilterHours(rows: seq<HoursRow>, start: Date, end: Date, roster: seq<string>)
    : (r: seq<HoursRow>)
    ensures forall x :: x in r <==> x in rows && InRange(x.date, start, end) && OnRoster(x.staff, roster)
    ensures forall x ::
      (multiset(r)[x] == if InRange(x.date, start, end) && OnRoster(x.staff, roster) then multiset(rows)[x] else 0)
  {
    var inRange := (x: HoursRow) => InRange(x.date, start, end);
    var onRoster := (x: HoursRow) => OnRoster(x.staff, roster);
    FilterMultiset(rows, inRange);
    FilterMultiset(Filter(rows, inRange), onRoster);
    Filter(Filter(rows, inRange), onRoster)
  }

  predicate MatterInRange(m: MatterRow, start: Date, end: Date) {
    m.date.Some? && InRange(m.date.value, start, end)
  }

  /** `filtered_matters`: matters created in the date range; a missing date compares false
      and drops the row. */
  function FilterMatters(rows: seq<MatterRow>, start: Date, end: Date): (r: seq<MatterRow>)
    ensures forall x :: x in r <==> x in rows && MatterInRange(x, start, end)
    ensures forall x :: multiset(r)[x] == if MatterInRange(x, start, end) then multiset(rows)[x] else 0
  {
    var inRange := (x: MatterRow) => MatterInRange(x, start, end);
    FilterMultiset(rows, inRange);
    Filter(rows, inRange)
  }

  lemma FilterMattersSnoc(ms: seq<MatterRow>, start: Date, end: Date)
    requires ms != []
    ensures FilterMatters(ms, start, end)
         == FilterMatters(ms[..|ms| - 1], start, end) + (if MatterInRange(ms[|ms| - 1], start, end) then [ms[|ms| - 1]] else [])
  {
  }

  /** `filtered_matters_ytd`: the filtered matters created from January 1st of the start
      date's year up to the end date. */
  function FilterMattersYtd(filtered: seq<MatterRow>, start: Date, end: Date): seq<MatterRow> {
    Filter(filtered, (x: MatterRow) => x.date.Some? && InRange(x.date.value, YearStart(start.year), end))
  }

  /** The year-to-date filter removes nothing: the range already starts on or after
      January 1st of the start date's year. */
  lemma MattersYtdIsFilteredMatters(rows: seq<MatterRow>, start: Date, end: Date)
    ensures FilterMattersYtd(FilterMatters(rows, start, end), start, end) == FilterMatters(rows, start, end)
  {
    var f := FilterMatters(rows, start, end);
    var p := (x: MatterRow) => x.date.Some? && InRange(x.date.value, YearStart(start.year), end);
    forall i | 0 <= i < |f| ensures p(f[i]) {
      assert f[i] in f;
      assert OnOrBefore(YearStart(start.year), start);
    }
    FilterKeepsAll(f, p);
  }

  // ------------------------------------------------------- group-by sums

  /** `Total = TotalRevShareMonth + OriginationFees`: missing when either part is missing. */
  function RowTotal(v: RevenueRow): (t: Option<real>)
    ensures t.Some? <==> v.totalRevShareMonth.Some? && v.originationFees.Some?
    ensures t.Some? ==> t.value == v.totalRevShareMonth.value + v.originationFees.value
  {
    match (v.totalRevShareMonth, v.originationFees)
    case (Some(a), Some(b)) => Some(a + b)
    case _ => None
  }

  /** What a row adds to a pandas `.sum()` of `Total`: missing values are skipped. */
  function Totals(rows: seq<RevenueRow>): (r: seq<real>)
    ensures |r| == |rows| && forall i :: 0 <= i < |rows| ==> r[i] == RowTotal(rows[i]).GetOr(0.0)
  {
    seq(|rows|, i requires 0 <= i < |rows| => RowTotal(rows[i]).GetOr(0.0))
  }

  function Amounts(rows: seq<HoursRow>): (r: seq<real>)
    ensures |r| == |rows| && forall i :: 0 <= i < |rows| ==> r[i] == rows[i].amount.GetOr(0.0)
  {
    seq(|rows|, i requires 0 <= i < |rows| => rows[i].amount.GetOr(0.0))
  }

  /** The `(MonthDate, Staff)` key of every revenue row. */
  function MonthStaffKeys(rows: seq<RevenueRow>): (r: seq<(Date, string)>)
    requires forall i :: 0 <= i < |rows| ==> rows[i].staff.Some?
    ensures |r| == |rows|
    ensures forall i :: 0 <= i < |rows| ==> r[i] == (MonthStart(rows[i].date), rows[i].staff.value)
  {
    seq(|rows|, i requires 0 <= i < |rows| => (MonthStart(rows[i].date), rows[i].staff.value))
  }

  /** `revenue_per_staff_monthly`. */
  function RevenuePerStaffMonthly(rows: seq<RevenueRow>): map<(Date, string), real>
    requires forall i :: 0 <= i < |rows| ==> rows[i].staff.Some?
  {
    GroupSum(MonthStaffKeys(rows), Totals(rows))
  }

  /** `total_team_revenue_monthly`, taken directly by month (see `TeamRevenueIsRollUp`). */
  function TeamRevenueMonthly(rows: seq<RevenueRow>): map<Date, real>
    requires forall i :: 0 <= i < |rows| ==> rows[i].staff.Some?
  {
    GroupSum(Firsts(MonthStaffKeys(rows)), Totals(rows))
  }

  /** The source sums the per-staff monthly table again by month. For any duplicate-free list
      of staff covering the rows, adding up a month's per-staff totals gives the month's
      total taken directly, and both are the sum of that month's row totals. */
  lemma TeamRevenueIsRollUp(rows: seq<RevenueRow>, staff: seq<string>, month: Date)
    requires forall i :: 0 <= i < |rows| ==> rows[i].staff.Some? && rows[i].staff.value in staff
    requires Distinct(staff)
    ensures SumOverSeconds(MonthStaffKeys(rows), Totals(rows), month, staff)
         == (if month in TeamRevenueMonthly(rows) then TeamRevenueMonthly(rows)[month] else 0.0)
    ensures month in TeamRevenueMonthly(rows) <==> exists i :: 0 <= i < |rows| && MonthStart(rows[i].date) == month
  {
    var keys := MonthStaffKeys(rows);
    RollUpSum(keys, Totals(rows), month, staff);
    var firsts := Firsts(keys);
    if month in TeamRevenueMonthly(rows) {
      var i :| 0 <= i < |firsts| && firsts[i] == month;
    }
  }

  /** `total_revenue`: the sum of every filtered row's `Total`, which is also the sum of the
      monthly team totals over any duplicate-free list of months covering the rows. */
  function TotalRevenue(rows: seq<RevenueRow>): real {
    Sum(Totals(rows))
  }

  lemma TotalRevenueIsSumOfMonths(rows: seq<RevenueRow>, months: seq<Date>)
    requires forall i :: 0 <= i < |rows| ==> rows[i].staff.Some? && MonthStart(rows[i].date) in months
    requires Distinct(months)
    ensures TotalRevenue(rows) == SumOver(Firsts(MonthStaffKeys(rows)), Totals(rows), months)
  {
    SumOverCoveringKeys(Firsts(MonthStaffKeys(rows)), Totals(rows), months);
  }

  /** The `(Week, Staff)` and `(Month, Staff)` keys of every hours row. */
  function WeekStaffKeys(rows: seq<HoursRow>): (r: seq<(int, string)>)
    requires forall i :: 0 <= i < |rows| ==> rows[i].staff.Some?
    ensures |r| == |rows|
    ensures forall i :: 0 <= i < |rows| ==> r[i] == (WeekKey(rows[i].date), rows[i].staff.value)
  {
    seq(|rows|, i requires 0 <= i < |rows| => (WeekKey(rows[i].date), rows[i].staff.value))
  }

  function MonthStaffHoursKeys(rows: seq<HoursRow>): (r: seq<(MonthKey, string)>)
    requires forall i :: 0 <= i < |rows| ==> rows[i].staff.Some?
    ensures |r| == |rows|
    ensures forall i :: 0 <= i < |rows| ==> r[i] == (MonthOf(rows[i].date), rows[i].staff.value)
  {
    seq(|rows|, i requires 0 <= i < |rows| => (MonthOf(rows[i].date), rows[i].staff.value))
  }

  /** `billable_hours_per_staff_weekly` and `billable_hours_per_staff_monthly`. */
  function HoursPerStaffWeekly(rows: seq<HoursRow>): map<(int, string), real>
    requires forall i :: 0 <= i < |rows| ==> rows[i].staff.Some?
  {
    GroupSum(WeekStaffKeys(rows), Amounts(rows))
  }

  function HoursPerStaffMonthly(rows: seq<HoursRow>): map<(MonthKey, string), real>
    requires forall i :: 0 <= i < |rows| ==> rows[i].staff.Some?
  {
    GroupSum(MonthStaffHoursKeys(rows), Amounts(rows))
  }

  /** `total_team_hours_weekly` and `total_team_hours_monthly`, taken directly by week and
      by month (see `TeamHoursAreRollUps`). */
  function TeamHoursWeekly(rows: seq<HoursRow>): map<int, real>
    requires forall i :: 0 <= i < |rows| ==> rows[i].staff.Some?
  {
    GroupSum(Firsts(WeekStaffKeys(rows)), Amounts(rows))
  }

  function TeamHoursMonthly(rows: seq<HoursRow>): map<MonthKey, real>
    requires forall i :: 0 <= i < |rows| ==> rows[i].staff.Some?
  {
    GroupSum(Firsts(MonthStaffHoursKeys(rows)), Amounts(rows))
  }

  /** Summing the per-staff weekly (monthly) hours of a week (month) over the staff gives
      that week's (month's) team hours. */
  lemma TeamHoursAreRollUps(rows: seq<HoursRow>, staff: seq<string>, week: int, month: MonthKey)
    requires forall i :: 0 <= i < |rows| ==> rows[i].staff.Some? && rows[i].staff.value in staff
    requires Distinct(staff)
    ensures SumOverSeconds(WeekStaffKeys(rows), Amounts(rows), week, staff)
         == (if week in TeamHoursWeekly(rows) then TeamHoursWeekly(rows)[week] else 0.0)
    ensures SumOverSeconds(MonthStaffHoursKeys(rows), Amounts(rows), month, staff)
         == (if month in TeamHoursMonthly(rows) then TeamHoursMonthly(rows)[month] else 0.0)
  {
    RollUpSum(WeekStaffKeys(rows), Amounts(rows), week, staff);
    RollUpSum(MonthStaffHoursKeys(rows), Amounts(rows), month, staff);
  }

  // ---------------------------------------------------------- thresholds

  datatype Thresholds = Thresholds(revenueStaff: real, hoursMonthly: real, hoursWeekly: real)

  /** The per-lawyer revenue goal and the monthly and weekly hours goals. Dividing by the
      roster length fails on an empty roster, so the roster must be non-empty. */
  function StaffThresholds(hours: int, revenue: int, rosterSize: nat): (t: Thresholds)
    requires rosterSize > 0
    ensures t.revenueStaff * rosterSize as real == revenue as real
    ensures t.hoursMonthly * 12.0 == hours as real
    ensures t.hoursWeekly * 4.0 == t.hoursMonthly
  {
    var monthly := hours as real / 12.0;
    Thresholds(revenue as real / rosterSize as real, monthly, monthly / 4.0)
  }

  // ------------------------------------------------- current / prior month

  /** `last_selected_month = max(filtered_revenue["MonthDate"])`; `max` of an empty column
      fails, so at least one filtered row is needed. */
  function LastSelectedMonth(rows: seq<RevenueRow>): (m: Date)
    requires |rows| > 0
    ensures m.day == 1
    ensures exists i :: 0 <= i < |rows| && m == MonthStart(rows[i].date)
    ensures forall i :: 0 <= i < |rows| ==> OnOrBefore(MonthStart(rows[i].date), m)
  {
    var last := MonthStart(rows[|rows| - 1].date);
    if |rows| == 1 then last
    else
      var init := rows[..|rows| - 1];
      var m := LastSelectedMonth(init);
      assert forall i :: 0 <= i < |init| ==> init[i] == rows[i];
      if OnOrBefore(last, m) then m else last
  }

  /** `current_month` is the last selected month and `prior_month` the calendar month before
      it, whether or not that month has any data. */
  function CurrentAndPriorMonth(rows: seq<RevenueRow>): (r: (MonthKey, MonthKey))
    requires |rows| > 0
    ensures r.0 == MonthOf(LastSelectedMonth(rows))
    ensures forall i :: 0 <= i < |rows| ==> !MonthBefore(r.0, MonthOf(rows[i].date))
    ensures MonthBefore(r.1, r.0)
    ensures forall x: MonthKey :: 1 <= x.month <= 12 ==> !(MonthBefore(r.1, x) && MonthBefore(x, r.0))
  {
    var last := LastSelectedMonth(rows);
    forall i | 0 <= i < |rows| ensures !MonthBefore(MonthOf(last), MonthOf(rows[i].date)) {
      if MonthBefore(MonthOf(last), MonthOf(rows[i].date)) {
        OrdinalFollowsMonths(last, MonthStart(rows[i].date));
      }
    }
    var cur := MonthOf(last);
    (cur, PrevMonth(cur))
  }

  /** `total_team_hours_monthly.loc[Month == month].sum()`: a month without hours gives 0. */
  function MonthHours(rows: seq<HoursRow>, month: MonthKey): (h: real)
    requires forall i :: 0 <= i < |rows| ==> rows[i].staff.Some?
    ensures h == SumFor(Firsts(MonthStaffHoursKeys(rows)), Amounts(rows), month)
    ensures (forall i :: 0 <= i < |rows| ==> MonthOf(rows[i].date) != month) ==> h == 0.0
  {
    var m := TeamHoursMonthly(rows);
    if month in m then m[month] else 0.0
  }
  // ------------------------------------------------------- year to date

  /** The first day of month `i + 1` of `year` (`pd.date_range(..., freq="MS")`). */
  function MonthFirst(year: int, i: int): (d: Date)
    requires 1 <= year <= 9999 && 0 <= i < 12
    ensures d.year == year && d.month == i + 1 && d.day == 1
  {
    Civil(year, i + 1, 1)
  }

  /** The 12 `Total` values of `ytd_revenue` after the left merge onto the months of the end
      date's year and `fillna(0)`: each month's team revenue, the sum of that month's row
      totals (see `YtdTotalsZeroFill` for the months without rows). */
  function YtdTotals(rows: seq<RevenueRow>, end: Date): (t: seq<real>)
    requires forall i :: 0 <= i < |rows| ==> rows[i].staff.Some?
    ensures |t| == 12
    ensures forall i :: 0 <= i < 12 ==>
      t[i] == SumFor(Firsts(MonthStaffKeys(rows)), Totals(rows), MonthFirst(end.year, i))
  {
    var keys, totals := Firsts(MonthStaffKeys(rows)), Totals(rows);
    var team := GroupSum(keys, totals);
    var t := seq(12, i requires 0 <= i < 12 => var m := MonthFirst(end.year, i); if m in team then team[m] else 0.0);
    assert forall i :: 0 <= i < 12 ==> t[i] == SumFor(keys, totals, MonthFirst(end.year, i));
    t
  }

  /** A month of the year without any filtered row has a `Total` of 0. */
  lemma YtdTotalsZeroFill(rows: seq<RevenueRow>, end: Date, i: int)
    requires forall j :: 0 <= j < |rows| ==> rows[j].staff.Some?
    requires 0 <= i < 12
    requires forall j :: 0 <= j < |rows| ==> MonthOf(rows[j].date) != MonthKey(end.year, i + 1)
    ensures YtdTotals(rows, end)[i] == 0.0
  {
  }

  /** `ytd_revenue[Total > 0]["MonthDate"].max()`, as a month position: the last month with
      positive revenue, missing when no month is positive. */
  function LastPositive(t: seq<real>): (r: Option<nat>)
    ensures r.None? <==> forall i :: 0 <= i < |t| ==> t[i] <= 0.0
    ensures r.Some? ==> r.value < |t| && t[r.value] > 0.0 && forall j :: r.value < j < |t| ==> t[j] <= 0.0
  {
    if t == [] then None
    else if t[|t| - 1] > 0.0 then Some(|t| - 1)
    else LastPositive(t[..|t| - 1])
  }

  /** `ytd_revenue["CumulativeRevenue"]`: the running sum of the monthly totals (`cumsum`),
      then set to 0 in place for every month after the last month with positive revenue
      (`.loc[MonthDate > last_revenue_month, "CumulativeRevenue"] = 0`). When no month is
      positive that maximum is missing, every comparison with it is false and nothing is
      zeroed. Months are compared by position, which within one year is their order. */
  method YtdCumulative(totals: seq<real>) returns (series: array<real>)
    ensures fresh(series) && series.Length == |totals|
    ensures forall i :: 0 <= i < |totals| ==>
      series[i] == if LastPositive(totals).Some? && i > LastPositive(totals).value then 0.0
                   else Sum(totals[..i + 1])
  {
    series := new real[|totals|];
    var running := 0.0;
    for i := 0 to |totals|
      invariant running == Sum(totals[..i])
      invariant forall k :: 0 <= k < i ==> series[k] == Sum(totals[..k + 1])
    {
      assert totals[..i + 1][..i] == totals[..i];
      running := running + totals[i];
      series[i] := running;
    }
    assert totals[..|totals|] == totals;
    var last := LastPositive(totals);
    for i := 0 to |totals|
      invariant forall k :: 0 <= k < |totals| ==>
        series[k] == if k < i && last.Some? && k > last.value then 0.0 else Sum(totals[..k + 1])
    {
      if last.Some? && i > last.value {
        series[i] := 0.0;
      }
    }
  }

  /** With no negative month, the series peaks at the last positive month with the whole
      year's revenue. */
  lemma {:induction false} YtdPeakIsYearTotal(totals: seq<real>)
    requires forall i :: 0 <= i < |totals| ==> totals[i] >= 0.0
    requires LastPositive(totals).Some?
    ensures Sum(totals[..LastPositive(totals).value + 1]) == Sum(totals)
  {
    var l := LastPositive(totals).value;
    if l + 1 < |totals| {
      var init := totals[..|totals| - 1];
      assert totals[|totals| - 1] == 0.0;
      assert LastPositive(init) == LastPositive(totals);
      YtdPeakIsYearTotal(init);
      assert init[..l + 1] == totals[..l + 1];
    } else {
      assert totals[..l + 1] == totals;
    }
  }

  /** `GoalRevenue = np.linspace(0, treshold_revenue, num=12)` in exact arithmetic: from 0 to
      the target in 11 equal steps. */
  function GoalLine(target: real): (g: seq<real>)
    ensures |g| == 12 && g[0] == 0.0 && g[11] == target
    ensures forall i :: 0 <= i < 11 ==> g[i + 1] - g[i] == target / 11.0
  {
    seq(12, i requires 0 <= i < 12 => target * (i as real) / 11.0)
  }

  // --------------------------------------------------------- recent weeks

  /** `recent_weeks = sorted([w for w in valid_weeks if w <= end_date])[-6:]`. */
  function RecentWeeks(weeks: seq<int>, end: Date): seq<int> {
    IntLessIsStrictTotal();
    TakeLast(SortUnique(Filter(weeks, (w: int) => w <= Ordinal(end)), IntLess), 6)
  }

  /** The recent weeks are ascending, at most 6, all present and not after the end date, and
      they are the latest such weeks: a week left out comes before all of them, and only when
      6 were kept. */
  lemma RecentWeeksAreLatest(weeks: seq<int>, end: Date)
    ensures var r := RecentWeeks(weeks, end);
      && |r| <= 6
      && (forall i, j :: 0 <= i < j < |r| ==> r[i] < r[j])
      && (forall w :: w in r ==> w in weeks && w <= Ordinal(end))
      && (forall w :: w in weeks && w <= Ordinal(end) && w !in r ==> |r| == 6 && forall v :: v in r ==> w < v)
  {
    IntLessIsStrictTotal();
    var sorted := SortUnique(Filter(weeks, (w: int) => w <= Ordinal(end)), IntLess);
    TakeLastOfSorted(sorted, 6, IntLess);
  }

  /** `weekly_individual_hours[Week.isin(recent_weeks)]`: the (week, staff) sums of the
      hours rows, kept for the recent weeks only. */
  function RecentWeeklyHours(rows: seq<HoursRow>, recent: seq<int>): (r: map<(int, string), real>)
    requires forall i :: 0 <= i < |rows| ==> rows[i].staff.Some?
    ensures forall k :: k in r <==>
      k.0 in recent && exists i :: 0 <= i < |rows| && (WeekKey(rows[i].date), rows[i].staff.value) == k
    ensures forall k :: k in r ==> r[k] == SumFor(WeekStaffKeys(rows), Amounts(rows), k)
  {
    var keys := WeekStaffKeys(rows);
    var weekly := GroupSum(keys, Amounts(rows));
    assert forall k :: k in keys <==> exists i :: 0 <= i < |rows| && (WeekKey(rows[i].date), rows[i].staff.value) == k
      by {
        forall k | k in keys
          ensures exists i :: 0 <= i < |rows| && (WeekKey(rows[i].date), rows[i].staff.value) == k
        {
          var i :| 0 <= i < |keys| && keys[i] == k;
        }
      }
    map k | k in weekly && k.0 in recent :: weekly[k]
  }

  /** Every week of the filtered hours is on or before the end date, so the `w <= end_date`
      test inside `recent_weeks` never removes a week. */
  lemma HoursWeeksNotAfterEnd(rows: seq<HoursRow>, start: Date, end: Date, roster: seq<string>)
    ensures var f := FilterHours(rows, start, end, roster);
      forall i :: 0 <= i < |f| ==> WeekKey(f[i].date) <= Ordinal(end)
  {
    var f := FilterHours(rows, start, end, roster);
    forall i | 0 <= i < |f| ensures WeekKey(f[i].date) <= Ordinal(end) {
      assert f[i] in f;
    }
  }

  // --------------------------------------------------------- new matters

  function Slot(m: MatterRow, j: nat): Option<string>
    requires j < 3
  {
    if j == 0 then m.staff1 else if j == 1 then m.staff2 else m.staff3
  }

  /** One `value_vars` column of the melt: `(MatterCreationDate, Staff)` for every matter. */
  function MeltColumn(ms: seq<MatterRow>, j: nat): (r: seq<(Option<Date>, Option<string>)>)
    requires j < 3
    ensures |r| == |ms| && forall i :: 0 <= i < |ms| ==> r[i] == (ms[i].date, Slot(ms[i], j))
  {
    if ms == [] then [] else MeltColumn(ms[..|ms| - 1], j) + [(ms[|ms| - 1].date, Slot(ms[|ms| - 1], j))]
  }

  /** `melt(value_vars=["orig_staff1", "orig_staff2", "orig_staff3"])`: the first slot of
      every matter, then the second, then the third. */
  function Melt(ms: seq<MatterRow>): seq<(Option<Date>, Option<string>)> {
    MeltColumn(ms, 0) + MeltColumn(ms, 1) + MeltColumn(ms, 2)
  }

  /** `dropna()` then `isin(custom_staff_list)`; each kept row becomes `(Week, Staff)`. */
  function DropNaOnRoster(rows: seq<(Option<Date>, Option<string>)>, roster: seq<string>)
    : (r: seq<(int, string)>)
  {
    if rows == [] then []
    else
      var init := DropNaOnRoster(rows[..|rows| - 1], roster);
      var e := rows[|rows| - 1];
      if e.0.Some? && OnRoster(e.1, roster) then init + [(WeekKey(e.0.value), e.1.value)] else init
  }

  lemma {:induction false} DropNaOnRosterAppend(
    xs: seq<(Option<Date>, Option<string>)>, ys: seq<(Option<Date>, Option<string>)>, roster: seq<string>)
    ensures DropNaOnRoster(xs + ys, roster) == DropNaOnRoster(xs, roster) + DropNaOnRoster(ys, roster)
    decreases |ys|
  {
    if ys == [] {
      assert xs + ys == xs;
    } else {
      var init := ys[..|ys| - 1];
      assert (xs + ys)[..|xs + ys| - 1] == xs + init;
      DropNaOnRosterAppend(xs, init, roster);
    }
  }

  /** The unpivoted, cleaned `(Week, Staff)` assignments of the year-to-date matters. */
  function StaffAssignments(ms: seq<MatterRow>, roster: seq<string>): seq<(int, string)> {
    DropNaOnRoster(Melt(ms), roster)
  }

  /** `new_matters_per_staff = groupby("Staff").size()`. */
  function NewMattersPerStaff(ms: seq<MatterRow>, roster: seq<string>): map<string, nat> {
    GroupCount(Seconds(StaffAssignments(ms, roster)))
  }

  /** `weekly_new_matters_per_staff = groupby(["Week", "Staff"]).size()`. */
  function WeeklyNewMattersPerStaff(ms: seq<MatterRow>, roster: seq<string>): map<(int, string), nat> {
    GroupCount(StaffAssignments(ms, roster))
  }

  /** How many of a matter's three slots hold `s`. */
  function SlotHits(m: MatterRow, s: string): nat {
    (if m.staff1 == Some(s) then 1 else 0)
    + (if m.staff2 == Some(s) then 1 else 0)
    + (if m.staff3 == Some(s) then 1 else 0)
  }

  /** The number of (matter, slot) pairs holding `s`, over matters that have a date. */
  function MatterSlotCount(ms: seq<MatterRow>, s: string): nat {
    if ms == [] then 0
    else
      var m := ms[|ms| - 1];
      MatterSlotCount(ms[..|ms| - 1], s) + (if m.date.Some? then SlotHits(m, s) else 0)
  }

  lemma MatterSlotCountSnoc(ms: seq<MatterRow>, m: MatterRow, s: string)
    requires m.date.Some?
    ensures MatterSlotCount(ms + [m], s) == MatterSlotCount(ms, s) + SlotHits(m, s)
  {
    assert (ms + [m])[..|ms|] == ms;
  }

  function ColumnCount(ms: seq<MatterRow>, j: nat, roster: seq<string>, s: string): nat
    requires j < 3
  {
    CountFor(Seconds(DropNaOnRoster(MeltColumn(ms, j), roster)), s)
  }

  lemma ColumnCountStep(ms: seq<MatterRow>, j: nat, roster: seq<string>, s: string)
    requires j < 3 && ms != []
    ensures var m := ms[|ms| - 1];
      ColumnCount(ms, j, roster, s) == ColumnCount(ms[..|ms| - 1], j, roster, s)
        + (if m.date.Some? && s in roster && Slot(m, j) == Some(s) then 1 else 0)
  {
    var col := MeltColumn(ms, j);
    assert col[..|col| - 1] == MeltColumn(ms[..|ms| - 1], j);
    var d := DropNaOnRoster(col, roster);
    var d0 := DropNaOnRoster(col[..|col| - 1], roster);
    if d != d0 {
      assert d == d0 + [d[|d| - 1]] && d[..|d| - 1] == d0;
      assert Seconds(d)[..|d0|] == Seconds(d0);
    }
  }

  lemma {:induction false} ColumnsCountSlots(ms: seq<MatterRow>, roster: seq<string>, s: string)
    ensures ColumnCount(ms, 0, roster, s) + ColumnCount(ms, 1, roster, s) + ColumnCount(ms, 2, roster, s)
         == if s in roster then MatterSlotCount(ms, s) else 0
  {
    if ms != [] {
      ColumnsCountSlots(ms[..|ms| - 1], roster, s);
      ColumnCountStep(ms, 0, roster, s);
      ColumnCountStep(ms, 1, roster, s);
      ColumnCountStep(ms, 2, roster, s);
    }
  }

  /** A staff member's year-to-date count is the number of (matter, slot) pairs holding them;
      missing slots and staff off the roster never count. */
  lemma YtdMatterCount(ms: seq<MatterRow>, roster: seq<string>, s: string)
    ensures (if s in NewMattersPerStaff(ms, roster) then NewMattersPerStaff(ms, roster)[s] else 0)
         == if s in roster then MatterSlotCount(ms, s) else 0
  {
    var c0, c1, c2 := MeltColumn(ms, 0), MeltColumn(ms, 1), MeltColumn(ms, 2);
    DropNaOnRosterAppend(c0 + c1, c2, roster);
    DropNaOnRosterAppend(c0, c1, roster);
    var d0, d1, d2 := DropNaOnRoster(c0, roster), DropNaOnRoster(c1, roster), DropNaOnRoster(c2, roster);
    SecondsAppend(d0 + d1, d2);
    SecondsAppend(d0, d1);
    CountForAppend(Seconds(d0) + Seconds(d1), Seconds(d2), s);
    CountForAppend(Seconds(d0), Seconds(d1), s);
    ColumnsCountSlots(ms, roster, s);
  }

  /** Every kept row comes from a dated row. */
  lemma {:induction false} DropNaOnRosterFrom(rows: seq<(Option<Date>, Option<string>)>, roster: seq<string>)
    ensures forall p :: p in DropNaOnRoster(rows, roster) ==>
      exists e :: e in rows && e.0.Some? && p.0 == WeekKey(e.0.value)
  {
    if rows != [] {
      var init := rows[..|rows| - 1];
      DropNaOnRosterFrom(init, roster);
      forall p | p in DropNaOnRoster(rows, roster)
        ensures exists e :: e in rows && e.0.Some? && p.0 == WeekKey(e.0.value)
      {
        if p in DropNaOnRoster(init, roster) {
          var e :| e in init && e.0.Some? && p.0 == WeekKey(e.0.value);
          assert e in rows;
        } else {
          assert rows[|rows| - 1] in rows;
        }
      }
    }
  }

  /** Every week of an assignment is the week of a dated matter. */
  lemma AssignmentWeeks(ms: seq<MatterRow>, roster: seq<string>)
    ensures forall p :: p in StaffAssignments(ms, roster) ==>
      exists i :: 0 <= i < |ms| && ms[i].date.Some? && p.0 == WeekKey(ms[i].date.value)
  {
    var melt := Melt(ms);
    DropNaOnRosterFrom(melt, roster);
    forall e | e in melt ensures exists i :: 0 <= i < |ms| && e.0 == ms[i].date {
      var k :| 0 <= k < |melt| && melt[k] == e;
      if k < |ms| {
        assert e == MeltColumn(ms, 0)[k];
      } else if k < 2 * |ms| {
        assert e == MeltColumn(ms, 1)[k - |ms|];
      } else {
        assert e == MeltColumn(ms, 2)[k - 2 * |ms|];
      }
    }
  }

  /** Summing a staff member's weekly counts over any duplicate-free list of weeks that covers
      the matters' weeks gives their year-to-date count. */
  lemma WeeklyMatterCountsAddUpToYtd(ms: seq<MatterRow>, roster: seq<string>, weeks: seq<int>, s: string)
    requires Distinct(weeks)
    requires forall i :: 0 <= i < |ms| && ms[i].date.Some? ==> WeekKey(ms[i].date.value) in weeks
    ensures CountOverFirsts(StaffAssignments(ms, roster), weeks, s)
         == if s in roster then MatterSlotCount(ms, s) else 0
  {
    var a := StaffAssignments(ms, roster);
    AssignmentWeeks(ms, roster);
    assert forall i :: 0 <= i < |a| ==> a[i].0 in weeks by {
      forall i | 0 <= i < |a| ensures a[i].0 in weeks {
        assert a[i] in a;
      }
    }
    RollUpCount(a, weeks, s);
    YtdMatterCount(ms, roster, s);
  }

  // ------------------------------------------------------------- prebills

  /** The month columns of the prebills matrix: `date_range` from January 1st for 12 months,
      formatted `%b`, is always January to December. */
  const MonthAbbrevs: seq<string> :=
    ["Jan", "Feb", "Mar", "Apr", "May", "Jun", "Jul", "Aug", "Sep", "Oct", "Nov", "Dec"]

  type Matrix = map<string, map<string, string>>

  /** A staff member's row of the matrix, empty when they have none. */
  function Row(data: Matrix, staff: string): map<string, string> {
    if staff in data then data[staff] else map[]
  }

  /** `row` is `orig` with every missing month added as "No". */
  ghost predicate FilledFrom(row: map<string, string>, orig: map<string, string>) {
    && (forall mo :: mo in row <==> mo in orig || mo in MonthAbbrevs)
    && (forall mo :: mo in row ==> row[mo] == if mo in orig then orig[mo] else "No")
  }

  lemma FilledFromTwice(a: map<string, string>, b: map<string, string>, c: map<string, string>)
    requires FilledFrom(b, a) && FilledFrom(c, b)
    ensures FilledFrom(c, a)
  {
  }

  /** The inner back-fill loop for one staff member's row. */
  method FillRow(row: map<string, string>) returns (r: map<string, string>)
    ensures FilledFrom(r, row)
  {
    r := row;
    for j := 0 to |MonthAbbrevs|
      invariant forall mo :: mo in r <==> mo in row || mo in MonthAbbrevs[..j]
      invariant forall mo :: mo in r ==> r[mo] == if mo in row then row[mo] else "No"
    {
      var month := MonthAbbrevs[j];
      if month !in r {
        r := r[month := "No"];
      }
    }
    assert MonthAbbrevs[..|MonthAbbrevs|] == MonthAbbrevs;
  }

  /** The back-fill loop: every roster staff member gets a row holding every month; cells
      already present keep their value and the missing ones become "No"; rows of staff off
      the roster are untouched. */
  method BackFill(data: Matrix, roster: seq<string>) returns (r: Matrix)
    ensures forall s :: s in r <==> s in data || s in roster
    ensures forall s :: s in data && s !in roster ==> r[s] == data[s]
    ensures forall s :: s in roster ==> FilledFrom(r[s], Row(data, s))
  {
    r := data;
    for i := 0 to |roster|
      invariant forall s :: s in r <==> s in data || s in roster[..i]
      invariant forall s :: s in data && s !in roster[..i] ==> r[s] == data[s]
      invariant forall s :: s in roster[..i] ==> FilledFrom(r[s], Row(data, s))
    {
      var staff := roster[i];
      var row := FillRow(Row(r, staff));
      if staff in roster[..i] {
        FilledFromTwice(Row(data, staff), r[staff], row);
      }
      assert roster[..i + 1] == roster[..i] + [staff];
      r := r[staff := row];
    }
    assert roster[..|roster|] == roster;
  }

  /** The two options of every cell's select box. */
  predicate IsChoice(v: string) {
    v == "Yes" || v == "No"
  }

  /** Every month of a stored row is present and holds "Yes" or "No". */
  ghost predicate RowChoices(stored: map<string, string>) {
    forall mo :: mo in MonthAbbrevs ==> mo in stored && IsChoice(stored[mo])
  }

  /** `row` is what the select boxes of one staff member's row return: exactly the twelve
      months, each the user's pick or else the stored value. */
  ghost predicate SavedRowOf(row: map<string, string>, stored: map<string, string>, staff: string,
                             picks: map<(string, string), string>) {
    && (forall mo :: mo in row <==> mo in MonthAbbrevs)
    && (forall mo :: mo in MonthAbbrevs ==>
          mo in stored && row[mo] == if (staff, mo) in picks then picks[(staff, mo)] else stored[mo])
  }

  /** The answers of the select boxes: a `st.selectbox` over `["Yes", "No"]` returns one of them. */
  predicate PicksAreChoices(picks: map<(string, string), string>) {
    forall k :: k in picks ==> IsChoice(picks[k])
  }

  /** One staff member's row of `updated_data`: each month's select box starts on the stored
      value, and `["Yes", "No"].index(value)` fails (`None`) on any other stored value. `picks`
      holds the boxes the user changed; with select-box answers the saved row is all Yes/No. */
  method SavedRow(stored: map<string, string>, staff: string, picks: map<(string, string), string>)
    returns (r: Option<map<string, string>>)
    requires forall mo :: mo in MonthAbbrevs ==> mo in stored
    ensures r.None? <==> !RowChoices(stored)
    ensures r.Some? ==> SavedRowOf(r.value, stored, staff, picks)
    ensures r.Some? && PicksAreChoices(picks) ==> forall mo :: mo in r.value ==> IsChoice(r.value[mo])
  {
    var row: map<string, string> := map[];
    for j := 0 to |MonthAbbrevs|
      invariant forall mo :: mo in row <==> mo in MonthAbbrevs[..j]
      invariant forall k :: 0 <= k < j ==>
        row[MonthAbbrevs[k]] == if (staff, MonthAbbrevs[k]) in picks then picks[(staff, MonthAbbrevs[k])] else stored[MonthAbbrevs[k]]
      invariant forall k :: 0 <= k < j ==> IsChoice(stored[MonthAbbrevs[k]])
    {
      var month := MonthAbbrevs[j];
      if !IsChoice(stored[month]) {
        return None;
      }
      row := row[month := if (staff, month) in picks then picks[(staff, month)] else stored[month]];
    }
    assert MonthAbbrevs[..|MonthAbbrevs|] == MonthAbbrevs;
    return Some(row);
  }

  /** Every roster staff member has a cell for every month. */
  ghost predicate CoversRoster(data: Matrix, roster: seq<string>) {
    forall s :: s in roster ==> s in data && forall mo :: mo in MonthAbbrevs ==> mo in data[s]
  }

  /** The back-filled matrix always covers the roster, and when the file held only "Yes" and
      "No" (or nothing) for the roster's cells, saving it cannot fail. */
  lemma BackFilledCanBeSaved(data: Matrix, filled: Matrix, roster: seq<string>)
    requires forall s :: s in roster ==> s in filled && FilledFrom(filled[s], Row(data, s))
    requires forall s, mo :: s in roster && mo in Row(data, s) ==> IsChoice(Row(data, s)[mo])
    ensures CoversRoster(filled, roster)
    ensures forall s :: s in roster ==> RowChoices(filled[s])
  {
  }

  /** `updated_data`: the matrix the Save button writes, built staff by staff from the select
      boxes (`picks` holds the cells the user changed). It fails (`None`) when a stored cell
      of the roster is neither "Yes" nor "No"; otherwise the file is overwritten with exactly
      the roster's rows, each with exactly the twelve months. */
  method SavedMatrix(data: Matrix, roster: seq<string>, picks: map<(string, string), string>)
    returns (r: Option<Matrix>)
    requires CoversRoster(data, roster)
    ensures r.None? <==> exists s :: s in roster && !RowChoices(data[s])
    ensures r.Some? ==> forall s :: s in r.value <==> s in roster
    ensures r.Some? ==> forall s :: s in roster ==> SavedRowOf(r.value[s], data[s], s, picks)
  {
    var updated: Matrix := map[];
    for i := 0 to |roster|
      invariant forall s :: s in updated <==> s in roster[..i]
      invariant forall s :: s in roster[..i] ==> s in roster
      invariant forall s :: s in roster[..i] ==> SavedRowOf(updated[s], data[s], s, picks)
      invariant forall s :: s in roster[..i] ==> RowChoices(data[s])
    {
      var staff := roster[i];
      var row := SavedRow(data[staff], staff, picks);
      if row.None? {
        return None;
      }
      assert roster[..i + 1] == roster[..i] + [staff];
      updated := updated[staff := row.value];
    }
    assert roster[..|roster|] == roster;
    return Some(updated);
  }
}
