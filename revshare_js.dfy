/** The `filteredData` computation of the React Revenue Share page
    (react-dashboard/frontend/src/pages/RevShare.jsx): the selected staff member's rows in the
    date range, the three totals, and the month-by-type payout table behind the bar chart.
    The `payoutByMonth` object is a map from month to its entry together with the months in
    the order they were first added, which is the order `Object.values` lists them in. */
module RevShareJs {
  import opened Wrappers
  import opened Calendar
  import opened Sorting
  import opened Aggregate
  import opened RevSharePy
  import RlgDashboardJs

  /** The `/revshare` response; a list the response lacks is `None`. */
  datatype RevShareData = RevShareData(
    revshare: Option<seq<RevShareRow>>,
    teType1: Option<seq<TimeEntry>>,
    teType2: Option<seq<TimeEntry>>,
    teType3: Option<seq<TimeEntry>>)

  // ------------------------------------------------------------ filters

  /** `filterByDateAndStaff(data.revshare, 'RevShareDate')`: a missing list gives no rows; a
      row is kept when its date parses, lies in the range and its staff is the selected one. */
  function FilterRows(list: Option<seq<RevShareRow>>, start: Date, end: Date, staff: string)
    : (r: seq<RevShareRow>)
    ensures list.None? ==> r == []
    ensures forall x :: x in r <==> list.Some? && x in list.value && RowSelected(x, start, end, Some(staff))
  {
    if list.None? then [] else SelectedRows(list.value, start, end, Some(staff))
  }

  predicate Dated(list: seq<TimeEntry>) {
    forall i :: 0 <= i < |list| ==> list[i].date.Some?
  }

  /** `filterByDateAndStaff(data.te_typeN, 'TimeEntryDate')`. */
  function FilterTimeEntries(list: Option<seq<TimeEntry>>, start: Date, end: Date, staff: string)
    : (r: seq<TimeEntry>)
    ensures list.None? ==> r == []
    ensures forall x :: x in r <==> list.Some? && x in list.value && EntrySelected(x, start, end, Some(staff))
    ensures Dated(r)
  {
    if list.None? then []
    else
      var r := FilterEntries(list.value, start, end, Some(staff));
      assert forall i :: 0 <= i < |r| ==> r[i] in r;
      r
  }

  /** The page lists the same revenue-share rows as the Streamlit tab, as often as the tab
      does; only their order differs (file order here, by date there). */
  lemma SameRowsAsStreamlit(rows: seq<RevShareRow>, start: Date, end: Date, staff: string)
    ensures multiset(FilterRows(Some(rows), start, end, staff))
         == multiset(FilterRevShare(rows, start, end, Some(staff)))
  {
    var a := FilterRows(Some(rows), start, end, staff);
    var b := FilterRevShare(rows, start, end, Some(staff));
    assert forall x :: multiset(a)[x] == multiset(b)[x];
  }

  // ------------------------------------------------------------ totals

  function ProductionOf(v: RevShareRow): real {
    RlgDashboardJs.OrZero(v.totalRevShareMonth)
  }

  function ShareOf(v: RevShareRow): real {
    RlgDashboardJs.OrZero(v.revShareTotal)
  }

  function HoursOf(e: TimeEntry): real {
    RlgDashboardJs.OrZero(e.amount)
  }

  function EntryPayout(e: TimeEntry): real {
    RlgDashboardJs.OrZero(e.totalPayout)
  }

  /** The page's production and share totals equal the Streamlit tab's KPIs over the same
      selection: counting a missing value as 0 and skipping it agree, and the tab's sort by
      date changes no sum. */
  lemma TotalsAgreeWithStreamlit(rows: seq<RevShareRow>, start: Date, end: Date, staff: string)
    ensures SumMap(FilterRows(Some(rows), start, end, staff), ProductionOf)
         == SumPresent(Productions(FilterRevShare(rows, start, end, Some(staff))))
    ensures SumMap(FilterRows(Some(rows), start, end, staff), ShareOf)
         == SumPresent(Shares(FilterRevShare(rows, start, end, Some(staff))))
  {
    var kept := SelectedRows(rows, start, end, Some(staff));
    var sorted := FilterRevShare(rows, start, end, Some(staff));
    assert sorted == SortBy(kept, DateKey);
    SumMapSortBy(kept, DateKey, ProductionOf);
    SumMapSortBy(kept, DateKey, ShareOf);
    SumPresentAsSumMap(Productions(sorted), sorted, ProductionOf);
    SumPresentAsSumMap(Shares(sorted), sorted, ShareOf);
  }

  // ------------------------------------------------------------ payout by month

  datatype EntryType = Fone | Fmon | Hourly

  /** An element of `chartData`: a month and the payout of each entry type in it. */
  datatype MonthPayout = MonthPayout(month: MonthKey, fone: real, fmon: real, hourly: real)

  function Payout(p: MonthPayout, t: EntryType): real {
    match t
    case Fone => p.fone
    case Fmon => p.fmon
    case Hourly => p.hourly
  }

  function PayoutOf(t: EntryType): MonthPayout -> real {
    p => Payout(p, t)
  }

  /** `payoutByMonth[month][type] += x`: only the entry's own type changes. */
  function AddPayout(p: MonthPayout, t: EntryType, x: real): (r: MonthPayout)
    ensures r.month == p.month
    ensures Payout(r, t) == Payout(p, t) + x
    ensures forall u :: u != t ==> Payout(r, u) == Payout(p, u)
  {
    match t
    case Fone => p.(fone := p.fone + x)
    case Fmon => p.(fmon := p.fmon + x)
    case Hourly => p.(hourly := p.hourly + x)
  }

  /** `payoutByMonth`: the entries by month, and the months in insertion order. */
  datatype PayoutTable = PayoutTable(entries: map<MonthKey, MonthPayout>, order: seq<MonthKey>)

  const EmptyTable := PayoutTable(map[], [])

  /** Every month is listed once, each entry sits under its own month, and months are real
      calendar months. */
  ghost predicate WellFormed(tab: PayoutTable) {
    && Distinct(tab.order)
    && (forall k :: k in tab.entries <==> k in tab.order)
    && (forall k :: k in tab.entries ==> tab.entries[k].month == k && 1 <= k.month <= 12)
  }

  /** The payout of type `t` the table holds for month `k` (0 when the month is absent). */
  function Get(tab: PayoutTable, k: MonthKey, t: EntryType): real {
    if k in tab.entries then Payout(tab.entries[k], t) else 0.0
  }

  function EntryMonth(e: TimeEntry): MonthKey
    requires e.date.Some?
  {
    MonthOf(e.date.value)
  }

  function EntryMonths(list: seq<TimeEntry>): (r: seq<MonthKey>)
    requires Dated(list)
    ensures |r| == |list| && forall i :: 0 <= i < |list| ==> r[i] == EntryMonth(list[i])
  {
    seq(|list|, i requires 0 <= i < |list| && list[i].date.Some? => EntryMonth(list[i]))
  }

  function EntryPayouts(list: seq<TimeEntry>): (r: seq<real>)
    ensures |r| == |list| && forall i :: 0 <= i < |list| ==> r[i] == EntryPayout(list[i])
  {
    seq(|list|, i requires 0 <= i < |list| => EntryPayout(list[i]))
  }

  /** One `forEach` step of `processTE`: a new month starts with every type at 0, then the
      entry's payout is added to its type. */
  function Record(tab: PayoutTable, e: TimeEntry, t: EntryType): PayoutTable
    requires e.date.Some?
  {
    var k := EntryMonth(e);
    if k in tab.entries then
      PayoutTable(tab.entries[k := AddPayout(tab.entries[k], t, EntryPayout(e))], tab.order)
    else
      PayoutTable(tab.entries[k := AddPayout(MonthPayout(k, 0.0, 0.0, 0.0), t, EntryPayout(e))], tab.order + [k])
  }

  function RecordAll(tab: PayoutTable, list: seq<TimeEntry>, t: EntryType): PayoutTable
    requires Dated(list)
  {
    if list == [] then tab else Record(RecordAll(tab, list[..|list| - 1], t), list[|list| - 1], t)
  }

  /** `processTE(list, type)`: records every entry of the list, in order. */
  method ProcessTE(tab: PayoutTable, list: seq<TimeEntry>, t: EntryType) returns (r: PayoutTable)
    requires Dated(list)
    ensures r == RecordAll(tab, list, t)
  {
    r := tab;
    for i := 0 to |list|
      invariant r == RecordAll(tab, list[..i], t)
    {
      assert list[..i + 1][..i] == list[..i];
      r := Record(r, list[i], t);
    }
    assert list[..|list|] == list;
  }

  lemma RecordStep(tab: PayoutTable, e: TimeEntry, t: EntryType)
    requires WellFormed(tab) && e.date.Some?
    ensures var r := Record(tab, e, t);
      && WellFormed(r)
      && (forall k :: k in r.entries <==> k in tab.entries || k == EntryMonth(e))
      && (forall k :: Get(r, k, t) == Get(tab, k, t) + (if k == EntryMonth(e) then EntryPayout(e) else 0.0))
      && (forall k, u :: u != t ==> Get(r, k, u) == Get(tab, k, u))
  {
    var k := EntryMonth(e);
    if k !in tab.entries {
      DistinctSnoc(tab.order, k);
    }
  }

  /** Recording a list adds each entry's payout to its month under its own type and to no
      other type, and creates exactly the months the list falls in. */
  lemma {:induction false} RecordAllFacts(tab: PayoutTable, list: seq<TimeEntry>, t: EntryType)
    requires WellFormed(tab) && Dated(list)
    ensures var r := RecordAll(tab, list, t);
      && WellFormed(r)
      && (forall k :: k in r.entries <==> k in tab.entries || k in EntryMonths(list))
      && (forall k :: Get(r, k, t) == Get(tab, k, t) + SumFor(EntryMonths(list), EntryPayouts(list), k))
      && (forall k, u :: u != t ==> Get(r, k, u) == Get(tab, k, u))
  {
    if list != [] {
      var n := |list| - 1;
      var init := list[..n];
      assert Dated(init);
      RecordAllFacts(tab, init, t);
      var prev := RecordAll(tab, init, t);
      RecordStep(prev, list[n], t);
      var months, payouts := EntryMonths(list), EntryPayouts(list);
      assert months[..n] == EntryMonths(init) && payouts[..n] == EntryPayouts(init);
      assert forall k ::
        SumFor(months, payouts, k)
          == SumFor(EntryMonths(init), EntryPayouts(init), k) + (if EntryMonth(list[n]) == k then EntryPayout(list[n]) else 0.0);
      assert forall k :: k in months <==> k in EntryMonths(init) || k == EntryMonth(list[n]) by {
        assert months == months[..n] + [months[n]];
      }
    }
  }

  /** The table `processTE` builds from the three filtered lists. */
  function PayoutTableOf(te1: seq<TimeEntry>, te2: seq<TimeEntry>, te3: seq<TimeEntry>): PayoutTable
    requires Dated(te1) && Dated(te2) && Dated(te3)
  {
    RecordAll(RecordAll(RecordAll(EmptyTable, te1, Fone), te2, Fmon), te3, Hourly)
  }

  /** Each month of the table holds, per type, the sum of that type's payouts in the month. */
  lemma PayoutTableFacts(te1: seq<TimeEntry>, te2: seq<TimeEntry>, te3: seq<TimeEntry>)
    requires Dated(te1) && Dated(te2) && Dated(te3)
    ensures var tab := PayoutTableOf(te1, te2, te3);
      && WellFormed(tab)
      && (forall k :: k in tab.entries <==> k in EntryMonths(te1) || k in EntryMonths(te2) || k in EntryMonths(te3))
      && (forall k :: Get(tab, k, Fone) == SumFor(EntryMonths(te1), EntryPayouts(te1), k))
      && (forall k :: Get(tab, k, Fmon) == SumFor(EntryMonths(te2), EntryPayouts(te2), k))
      && (forall k :: Get(tab, k, Hourly) == SumFor(EntryMonths(te3), EntryPayouts(te3), k))
  {
    var t1 := RecordAll(EmptyTable, te1, Fone);
    var t2 := RecordAll(t1, te2, Fmon);
    RecordAllFacts(EmptyTable, te1, Fone);
    RecordAllFacts(t1, te2, Fmon);
    RecordAllFacts(t2, te3, Hourly);
  }

  /** `Object.values(payoutByMonth)`. */
  function Values(tab: PayoutTable): (r: seq<MonthPayout>)
    requires WellFormed(tab)
    ensures forall p :: p in r <==> p.month in tab.entries && tab.entries[p.month] == p
  {
    var r := GroupValues(tab.entries, tab.order);
    assert forall p :: p in r ==> exists i :: 0 <= i < |r| && r[i] == p;
    r
  }

  function MonthIndex(p: MonthPayout): int {
    p.month.year * 12 + p.month.month
  }

  /** `chartData`: the table's entries sorted by month. The source sorts by
      `new Date(a.month) - new Date(b.month)` on labels such as "Jan 2025"; the model
      assumes the engine parses those labels, otherwise the order is insertion order. */
  function ChartData(te1: seq<TimeEntry>, te2: seq<TimeEntry>, te3: seq<TimeEntry>): seq<MonthPayout>
    requires Dated(te1) && Dated(te2) && Dated(te3)
  {
    PayoutTableFacts(te1, te2, te3);
    SortBy(Values(PayoutTableOf(te1, te2, te3)), MonthIndex)
  }

  /** One element per month some filtered entry falls in, holding each type's payout sum for
      that month, in ascending month order. */
  lemma ChartDataContents(te1: seq<TimeEntry>, te2: seq<TimeEntry>, te3: seq<TimeEntry>)
    requires Dated(te1) && Dated(te2) && Dated(te3)
    ensures var r := ChartData(te1, te2, te3);
      && (forall p :: p in r <==>
            && (p.month in EntryMonths(te1) || p.month in EntryMonths(te2) || p.month in EntryMonths(te3))
            && p.fone == SumFor(EntryMonths(te1), EntryPayouts(te1), p.month)
            && p.fmon == SumFor(EntryMonths(te2), EntryPayouts(te2), p.month)
            && p.hourly == SumFor(EntryMonths(te3), EntryPayouts(te3), p.month))
      && forall i, j :: 0 <= i < j < |r| ==> !MonthBefore(r[j].month, r[i].month)
  {
    PayoutTableFacts(te1, te2, te3);
    var tab := PayoutTableOf(te1, te2, te3);
    var vs := Values(tab);
    var r := ChartData(te1, te2, te3);
    SortByMembers(vs, MonthIndex);
    ChartDataAscending(tab, r);
  }

  /** A sorted `Object.values` lists the months in ascending order. */
  lemma ChartDataAscending(tab: PayoutTable, r: seq<MonthPayout>)
    requires WellFormed(tab)
    requires SortedBy(r, MonthIndex) && forall p :: p in r ==> p in Values(tab)
    ensures forall i, j :: 0 <= i < j < |r| ==> !MonthBefore(r[j].month, r[i].month)
  {
    forall i, j | 0 <= i < j < |r|
      ensures !MonthBefore(r[j].month, r[i].month)
    {
      assert r[i] in r && r[j] in r;
      assert MonthIndex(r[i]) <= MonthIndex(r[j]);
    }
  }

  /** Summing one type's payout over the listed months adds up that type's rows in them. */
  lemma {:induction false} SumValuesAt(m: map<MonthKey, MonthPayout>, ks: seq<MonthKey>, t: EntryType,
                                       keys: seq<MonthKey>, vals: seq<real>)
    requires |keys| == |vals|
    requires forall i :: 0 <= i < |ks| ==> ks[i] in m && Payout(m[ks[i]], t) == SumFor(keys, vals, ks[i])
    ensures SumMap(GroupValues(m, ks), PayoutOf(t)) == SumOver(keys, vals, ks)
  {
    if ks != [] {
      var n := |ks| - 1;
      SumValuesAt(m, ks[..n], t, keys, vals);
      assert GroupValues(m, ks)[..n] == GroupValues(m, ks[..n]);
    }
  }

  lemma TypeConserves(tab: PayoutTable, t: EntryType, list: seq<TimeEntry>)
    requires WellFormed(tab) && Dated(list)
    requires forall k :: Get(tab, k, t) == SumFor(EntryMonths(list), EntryPayouts(list), k)
    requires forall k :: k in EntryMonths(list) ==> k in tab.entries
    ensures SumMap(SortBy(Values(tab), MonthIndex), PayoutOf(t)) == Sum(EntryPayouts(list))
  {
    var keys, vals := EntryMonths(list), EntryPayouts(list);
    SumMapSortBy(Values(tab), MonthIndex, PayoutOf(t));
    SumValuesAt(tab.entries, tab.order, t, keys, vals);
    assert forall i :: 0 <= i < |keys| ==> keys[i] in keys;
    SumOverCoveringKeys(keys, vals, tab.order);
  }

  /** For each type, the bars of `chartData` add up to the payouts of that type's filtered
      entries: no entry is lost, counted twice or credited to another type. */
  lemma ChartDataConserves(te1: seq<TimeEntry>, te2: seq<TimeEntry>, te3: seq<TimeEntry>)
    requires Dated(te1) && Dated(te2) && Dated(te3)
    ensures SumMap(ChartData(te1, te2, te3), PayoutOf(Fone)) == Sum(EntryPayouts(te1))
    ensures SumMap(ChartData(te1, te2, te3), PayoutOf(Fmon)) == Sum(EntryPayouts(te2))
    ensures SumMap(ChartData(te1, te2, te3), PayoutOf(Hourly)) == Sum(EntryPayouts(te3))
  {
    PayoutTableFacts(te1, te2, te3);
    var tab := PayoutTableOf(te1, te2, te3);
    TypeConserves(tab, Fone, te1);
    TypeConserves(tab, Fmon, te2);
    TypeConserves(tab, Hourly, te3);
  }

  // ------------------------------------------------------------ filteredData

  datatype Filtered = Filtered(
    totalProductionRevenue: real,
    totalRevenueShare: real,
    totalHours: real,
    chartData: seq<MonthPayout>,
    revShare: seq<RevShareRow>,
    te1: seq<TimeEntry>,
    te2: seq<TimeEntry>,
    te3: seq<TimeEntry>)

  /** The `filteredData` memo: `null` without data or without a selected staff member;
      otherwise the filtered lists, the totals (hours over all three entry types) and the
      chart data. */
  method FilteredData(data: Option<RevShareData>, selectedStaff: string, start: Date, end: Date)
    returns (r: Option<Filtered>)
    ensures r.None? <==> data.None? || selectedStaff == ""
    ensures r.Some? ==>
      var d := data.value;
      var te1 := FilterTimeEntries(d.teType1, start, end, selectedStaff);
      var te2 := FilterTimeEntries(d.teType2, start, end, selectedStaff);
      var te3 := FilterTimeEntries(d.teType3, start, end, selectedStaff);
      && r.value.revShare == FilterRows(d.revshare, start, end, selectedStaff)
      && r.value.te1 == te1 && r.value.te2 == te2 && r.value.te3 == te3
      && r.value.totalProductionRevenue == SumMap(r.value.revShare, ProductionOf)
      && r.value.totalRevenueShare == SumMap(r.value.revShare, ShareOf)
      && r.value.totalHours == SumMap(te1, HoursOf) + SumMap(te2, HoursOf) + SumMap(te3, HoursOf)
      && r.value.chartData == ChartData(te1, te2, te3)
  {
    if data.None? || selectedStaff == "" {
      return None;
    }
    var d := data.value;
    var revShare := FilterRows(d.revshare, start, end, selectedStaff);
    var te1 := FilterTimeEntries(d.teType1, start, end, selectedStaff);
    var te2 := FilterTimeEntries(d.teType2, start, end, selectedStaff);
    var te3 := FilterTimeEntries(d.teType3, start, end, selectedStaff);

    var totalProductionRevenue := SumMap(revShare, ProductionOf);
    var totalRevenueShare := SumMap(revShare, ShareOf);
    var totalHours := SumMap(te1 + te2 + te3, HoursOf);
    SumMapAppend(te1, te2, HoursOf);
    SumMapAppend(te1 + te2, te3, HoursOf);

    var payoutByMonth := EmptyTable;
    payoutByMonth := ProcessTE(payoutByMonth, te1, Fone);
    payoutByMonth := ProcessTE(payoutByMonth, te2, Fmon);
    payoutByMonth := ProcessTE(payoutByMonth, te3, Hourly);
    PayoutTableFacts(te1, te2, te3);
    var chartData := SortBy(Values(payoutByMonth), MonthIndex);

    r := Some(Filtered(totalProductionRevenue, totalRevenueShare, totalHours, chartData, revShare, te1, te2, te3));
  }
}
