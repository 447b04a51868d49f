/** The Streamlit Revenue Share tab (Tabs/RevShare.py): the selected staff member's revenue
    share rows in the date range with renamed and reordered columns, the three kinds of
    time entries, the monthly payout per entry type and the three KPIs. Reading the four
    CSV files is outside the model: their parsed rows are inputs. */
module RevSharePy {
  import opened Wrappers
  import opened Calendar
  import opened Sorting
  import opened Aggregate
  import opened Text

  // ------------------------------------------------------------ rows

  /** A row of the revenue-share table. Columns the tab only passes through are not
      modelled; a date that does not parse is `None`. */
  datatype RevShareRow = RevShareRow(
    date: Option<Date>,
    staff: Option<string>,
    tier1: Option<real>,
    tier2: Option<real>,
    tier3: Option<real>,
    totalRevShareMonth: Option<real>,
    revShareTotal: Option<real>)

  /** A time entry of one of the three types (FONE, FMON, hourly). */
  datatype TimeEntry = TimeEntry(
    date: Option<Date>,
    staff: Option<string>,
    amount: Option<real>,
    totalPayout: Option<real>)

  /** `start <= date <= end` and `Staff == staff_selected`. A missing date compares false;
      with no staff to select (`None`) nothing matches. */
  predicate Selected(date: Option<Date>, staff: Option<string>, start: Date, end: Date, selected: Option<string>) {
    date.Some? && InRange(date.value, start, end) && selected.Some? && staff == selected
  }

  predicate RowSelected(v: RevShareRow, start: Date, end: Date, selected: Option<string>) {
    Selected(v.date, v.staff, start, end, selected)
  }

  function DateKey(v: RevShareRow): int {
    if v.date.Some? then Ordinal(v.date.value) else 0
  }

  /** The selected staff member's rows in the range, in file order. */
  function SelectedRows(rows: seq<RevShareRow>, start: Date, end: Date, selected: Option<string>)
    : (r: seq<RevShareRow>)
    ensures forall x :: x in r <==> x in rows && RowSelected(x, start, end, selected)
    ensures forall x :: multiset(r)[x] == if RowSelected(x, start, end, selected) then multiset(rows)[x] else 0
  {
    var keep := (v: RevShareRow) => RowSelected(v, start, end, selected);
    FilterMultiset(rows, keep);
    Filter(rows, keep)
  }

  /** `filtered_rev`: the selected staff member's rows in the range, ascending by date. */
  function FilterRevShare(rows: seq<RevShareRow>, start: Date, end: Date, selected: Option<string>)
    : (r: seq<RevShareRow>)
    ensures forall x :: x in r <==> x in rows && RowSelected(x, start, end, selected)
    ensures forall x :: multiset(r)[x] == if RowSelected(x, start, end, selected) then multiset(rows)[x] else 0
    ensures forall i, j :: 0 <= i < j < |r| ==>
      r[i].date.Some? && r[j].date.Some? && OnOrBefore(r[i].date.value, r[j].date.value)
  {
    var kept := SelectedRows(rows, start, end, selected);
    var r := SortBy(kept, DateKey);
    SortedByDate(kept, r);
    r
  }

  /** Sorting rows that all have a date by `DateKey` orders them by date. */
  lemma SortedByDate(kept: seq<RevShareRow>, r: seq<RevShareRow>)
    requires forall x :: x in kept ==> x.date.Some?
    requires SortedBy(r, DateKey) && multiset(r) == multiset(kept)
    ensures forall x :: x in r <==> x in kept
    ensures forall i, j :: 0 <= i < j < |r| ==>
      r[i].date.Some? && r[j].date.Some? && OnOrBefore(r[i].date.value, r[j].date.value)
  {
    assert forall x :: x in r <==> x in multiset(r);
    assert forall x :: x in kept <==> x in multiset(kept);
    forall i, j | 0 <= i < j < |r|
      ensures r[i].date.Some? && r[j].date.Some? && OnOrBefore(r[i].date.value, r[j].date.value)
    {
      assert r[i] in r && r[j] in r;
      assert DateKey(r[i]) <= DateKey(r[j]);
    }
  }

  /** "Production Revenue Share" = Tier 1 + Tier 2 + Tier 3; a missing tier makes it missing. */
  function ProductionRevenueShare(v: RevShareRow): (r: Option<real>)
    ensures r.Some? <==> v.tier1.Some? && v.tier2.Some? && v.tier3.Some?
    ensures r.Some? ==> r.value == v.tier1.value + v.tier2.value + v.tier3.value
  {
    if v.tier1.Some? && v.tier2.Some? && v.tier3.Some? then Some(v.tier1.value + v.tier2.value + v.tier3.value)
    else None
  }

  // ------------------------------------------------------------ columns

  const ProductionShareColumn: string := "Production Revenue Share"

  /** The `rename` mapping of the revenue-share columns. */
  const RevShareRenames: map<string, string> := map[
    "RevShareMonth" := "Month", "RevShareYear" := "Year", "RevShareDate" := "Date", "Staff" := "Staff",
    "FMONHours" := "FMON Hours", "FMONRevenue" := "FMON Revenue", "FONEHours" := "FONE Hours",
    "FONERevenue" := "FONE Revenue", "HourlyHours" := "Hourly Hours", "HourlyRevenue" := "Hourly Revenue",
    "TotalRevShareMonth" := "Total Production Revenue", "RevTier1" := "Tier 1", "RevTier2" := "Tier 2",
    "RevTier3" := "Tier 3", "RevTierTotal" := "Total Tiers", "OriginationFees" := "Origination Revenue Share",
    "RevShareTotal" := "Total Revenue Share"]

  /** `desired_order`. */
  const DesiredOrder: seq<string> := [
    "Year", "Month", "Date", "Staff", "FMON Hours", "FMON Revenue", "FONE Hours", "FONE Revenue",
    "Hourly Hours", "Hourly Revenue", "Total Production Revenue", "Tier 1", "Tier 2", "Tier 3",
    "Total Tiers", ProductionShareColumn, "Origination Revenue Share", "Total Revenue Share"]

  lemma DesiredOrderFacts()
    ensures Distinct(DesiredOrder)
    ensures forall c :: c in DesiredOrder ==> Named(c)
  {
    forall c | c in DesiredOrder ensures Named(c) {
      assert c[0] != 'U';
    }
  }

  function Rename(c: string): string {
    if c in RevShareRenames then RevShareRenames[c] else c
  }

  /** Columns other than the CSV index leftovers (`Unnamed: 0`, ...). */
  predicate Named(c: string) {
    !StartsWith(c, "Unnamed")
  }

  /** The columns after dropping the `Unnamed` ones and renaming. */
  function PresentColumns(csvColumns: seq<string>): (r: seq<string>)
    ensures |r| == |Filter(csvColumns, Named)|
    ensures forall i :: 0 <= i < |r| ==> r[i] == Rename(Filter(csvColumns, Named)[i])
  {
    var kept := Filter(csvColumns, Named);
    seq(|kept|, i requires 0 <= i < |kept| => Rename(kept[i]))
  }

  /** The displayed columns of `filtered_rev`: those of `desired_order` that are present
      once "Production Revenue Share" is added, in `desired_order`'s order. Adding that
      column reads the three tier columns, and raises when one is missing. */
  function RevShareColumns(csvColumns: seq<string>): (r: Result<seq<string>, string>)
    ensures r.Err? <==> !("Tier 1" in PresentColumns(csvColumns) && "Tier 2" in PresentColumns(csvColumns)
                          && "Tier 3" in PresentColumns(csvColumns))
    ensures r.Err? ==> r.error in {"Tier 1", "Tier 2", "Tier 3"} && r.error !in PresentColumns(csvColumns)
    ensures r.Ok? ==> forall c :: c in r.value <==>
      c in DesiredOrder && (c in PresentColumns(csvColumns) || c == ProductionShareColumn)
    ensures r.Ok? ==> ProductionShareColumn in r.value
    ensures r.Ok? ==> forall c :: c in r.value ==> Named(c)
    ensures r.Ok? ==> Distinct(r.value) && forall i, j :: 0 <= i < j < |r.value| ==>
      Position(DesiredOrder, r.value[i]) < Position(DesiredOrder, r.value[j])
  {
    var present := PresentColumns(csvColumns);
    if "Tier 1" !in present then Err("Tier 1")
    else if "Tier 2" !in present then Err("Tier 2")
    else if "Tier 3" !in present then Err("Tier 3")
    else
      var withShare := if ProductionShareColumn in present then present else present + [ProductionShareColumn];
      var shown := (c: string) => c in withShare;
      DesiredOrderFacts();
      FilterKeepsOrder(DesiredOrder, shown);
      var r := Filter(DesiredOrder, shown);
      assert Distinct(r) by {
        forall i, j | 0 <= i < j < |r| ensures r[i] != r[j] {
          assert Position(DesiredOrder, r[i]) < Position(DesiredOrder, r[j]);
        }
      }
      Ok(r)
  }

  // ------------------------------------------------------------ format_as_money

  /** A table cell: a number, a missing value, text, or a number formatted as money
      (`f"${x:,.0f}"`; the digits themselves are not modelled). */
  datatype Cell = Number(x: real) | Missing | Text(s: string) | Money(amount: real)

  predicate Numeric(c: Cell) {
    c.Number? || c.Missing?
  }

  /** One cell of a formatted column: a number becomes money text, a missing value "". */
  function FormatCell(c: Cell): (r: Cell)
    requires Numeric(c)
    ensures c.Number? ==> r == Money(c.x)
    ensures c.Missing? ==> r == Text("")
  {
    if c.Number? then Money(c.x) else Text("")
  }

  function FormatColumn(col: seq<Cell>): (r: seq<Cell>)
    requires forall k :: 0 <= k < |col| ==> Numeric(col[k])
    ensures |r| == |col| && forall k :: 0 <= k < |col| ==> r[k] == FormatCell(col[k])
  {
    seq(|col|, k requires 0 <= k < |col| => FormatCell(col[k]))
  }

  /** A data frame: its column names and each column's cells. */
  class DataFrame {
    var columns: seq<string>
    var data: map<string, seq<Cell>>

    ghost predicate Valid()
      reads this
    {
      forall c :: c in columns ==> c in data
    }

    constructor (columns: seq<string>, data: map<string, seq<Cell>>)
      requires forall c :: c in columns ==> c in data
      ensures Valid() && this.columns == columns && this.data == data
    {
      this.columns := columns;
      this.data := data;
    }

    /** `format_as_money(df, cols)`: each listed column that the frame has is rewritten as
        money text; the other columns are untouched. */
    method FormatAsMoney(cols: seq<string>)
      requires Valid() && Distinct(cols)
      requires forall c :: c in cols && c in columns ==> forall k :: 0 <= k < |data[c]| ==> Numeric(data[c][k])
      modifies this
      ensures Valid() && columns == old(columns) && data.Keys == old(data.Keys)
      ensures forall c :: c in data ==>
        data[c] == if c in cols && c in columns then FormatColumn(old(data[c])) else old(data[c])
    {
      for i := 0 to |cols|
        invariant Valid() && columns == old(columns) && data.Keys == old(data.Keys)
        invariant forall c :: c in data ==>
          data[c] == if c in cols[..i] && c in columns then FormatColumn(old(data[c])) else old(data[c])
      {
        var col := cols[i];
        assert col !in cols[..i];
        if col in columns {
          data := data[col := FormatColumn(data[col])];
        }
        assert cols[..i + 1] == cols[..i] + [col];
      }
      assert cols[..|cols|] == cols;
    }
  }

  // ------------------------------------------------------------ time entries

  predicate EntrySelected(e: TimeEntry, start: Date, end: Date, selected: Option<string>) {
    Selected(e.date, e.staff, start, end, selected)
  }

  /** `filtered_te`: the selected staff member's entries in the range, in file order. */
  function FilterEntries(entries: seq<TimeEntry>, start: Date, end: Date, selected: Option<string>)
    : (r: seq<TimeEntry>)
    ensures forall x :: x in r <==> x in entries && EntrySelected(x, start, end, selected)
  {
    Filter(entries, (e: TimeEntry) => EntrySelected(e, start, end, selected))
  }

  /** A row of a summary frame: `Date`, `Total Payout`, `Type`, `Amount`. */
  datatype SummaryRow = SummaryRow(date: Date, totalPayout: Option<real>, kind: string, amount: Option<real>)

  /** `label_map` applied to `entry_labels`: Type I, II and III are shown as FONE, FMON and Hourly. */
  const TypeLabels: seq<string> := ["FONE", "FMON", "Hourly"]

  /** One entry type's selected entries as summary rows carrying the type's label. */
  function TypeFrame(entries: seq<TimeEntry>, start: Date, end: Date, selected: Option<string>, kind: string)
    : (r: seq<SummaryRow>)
    ensures |r| == |FilterEntries(entries, start, end, selected)|
    ensures forall i :: 0 <= i < |r| ==>
      var e := FilterEntries(entries, start, end, selected)[i];
      e.date == Some(r[i].date) && r[i].totalPayout == e.totalPayout && r[i].amount == e.amount
    ensures forall row :: row in r ==> row.kind == kind && InRange(row.date, start, end)
  {
    var f := FilterEntries(entries, start, end, selected);
    assert forall i :: 0 <= i < |f| ==> f[i] in f;
    seq(|f|, i requires 0 <= i < |f| => SummaryRow(f[i].date.value, f[i].totalPayout, kind, f[i].amount))
  }

  /** The three types' summary frames, empty or not. */
  function AllFrames(entries: seq<seq<TimeEntry>>, start: Date, end: Date, selected: Option<string>)
    : (r: seq<seq<SummaryRow>>)
    requires |entries| == 3
    ensures |r| == 3 && forall i :: 0 <= i < 3 ==> r[i] == TypeFrame(entries[i], start, end, selected, TypeLabels[i])
  {
    seq(3, i requires 0 <= i < 3 => TypeFrame(entries[i], start, end, selected, TypeLabels[i]))
  }

  predicate NonEmpty(f: seq<SummaryRow>) {
    f != []
  }

  /** The `summary_frames` loop: a type's frame is appended only when it has rows. Dropping
      the empty frames loses no row: the frames hold the FONE, then the FMON, then the
      hourly rows. */
  method SummaryFrames(entries: seq<seq<TimeEntry>>, start: Date, end: Date, selected: Option<string>)
    returns (frames: seq<seq<SummaryRow>>)
    requires |entries| == 3
    ensures frames == Filter(AllFrames(entries, start, end, selected), NonEmpty)
    ensures forall f :: f in frames ==> f != []
    ensures Concat(frames) == TypeFrame(entries[0], start, end, selected, "FONE")
                            + TypeFrame(entries[1], start, end, selected, "FMON")
                            + TypeFrame(entries[2], start, end, selected, "Hourly")
  {
    ghost var all := AllFrames(entries, start, end, selected);
    frames := [];
    for i := 0 to 3
      invariant frames == Filter(all[..i], NonEmpty)
      invariant Concat(frames) == Concat(all[..i])
    {
      var filtered := TypeFrame(entries[i], start, end, selected, TypeLabels[i]);
      assert all[..i + 1] == all[..i] + [filtered];
      FramesStep(all[..i], frames, filtered);
      if filtered != [] {
        frames := frames + [filtered];
      }
    }
    assert all[..3] == all;
    AllFramesConcat(entries, start, end, selected);
  }

  /** Concatenating the three frames gives the FONE, then the FMON, then the hourly rows. */
  lemma AllFramesConcat(entries: seq<seq<TimeEntry>>, start: Date, end: Date, selected: Option<string>)
    requires |entries| == 3
    ensures Concat(AllFrames(entries, start, end, selected))
         == TypeFrame(entries[0], start, end, selected, "FONE")
          + TypeFrame(entries[1], start, end, selected, "FMON")
          + TypeFrame(entries[2], start, end, selected, "Hourly")
  {
    var all := AllFrames(entries, start, end, selected);
    assert TypeLabels[0] == "FONE" && TypeLabels[1] == "FMON" && TypeLabels[2] == "Hourly";
    ConcatOfThree(all);
  }

  lemma ConcatOfThree<T>(s: seq<seq<T>>)
    requires |s| == 3
    ensures Concat(s) == s[0] + s[1] + s[2]
  {
    assert s[..2][..1][..0] == [];
    assert Concat(s[..1]) == s[0] by {
      assert Concat(s[..1]) == Concat(s[..1][..0]) + s[0];
      assert [] + s[0] == s[0];
    }
    assert Concat(s[..2]) == Concat(s[..2][..1]) + s[1];
    assert s[..2][..1] == s[..1] && s[..3] == s;
  }

  /** One more type's frame: appended when it has rows, skipped otherwise. */
  lemma FramesStep(done: seq<seq<SummaryRow>>, frames: seq<seq<SummaryRow>>, f: seq<SummaryRow>)
    requires frames == Filter(done, NonEmpty) && Concat(frames) == Concat(done)
    ensures var next := if f != [] then frames + [f] else frames;
      next == Filter(done + [f], NonEmpty) && Concat(next) == Concat(done + [f])
  {
    FilterSnoc(done, f, NonEmpty);
    ConcatSnoc(done, f);
    if f != [] {
      ConcatSnoc(frames, f);
    } else {
      ConcatEmpty(Concat(done));
    }
  }

  // ------------------------------------------------------------ payout by month

  /** (month, type) in chronological order, types alphabetical within a month. */
  predicate PairLess(a: (MonthKey, string), b: (MonthKey, string)) {
    MonthBefore(a.0, b.0) || (a.0 == b.0 && StrLess(a.1, b.1))
  }

  lemma PairLessIsStrictTotal()
    ensures IsStrictTotalOrder(PairLess)
  {
    MonthBeforeIsStrictTotal();
    StrLessIsStrictTotal();
  }

  predicate HasPayout(row: SummaryRow) {
    row.totalPayout.Some?
  }

  /** The (month, type) key of each row. */
  function PayoutKeys(rows: seq<SummaryRow>): (r: seq<(MonthKey, string)>)
    ensures |r| == |rows| && forall i :: 0 <= i < |rows| ==> r[i] == (MonthOf(rows[i].date), rows[i].kind)
  {
    seq(|rows|, i requires 0 <= i < |rows| => (MonthOf(rows[i].date), rows[i].kind))
  }

  function Payouts(rows: seq<SummaryRow>): (r: seq<real>)
    ensures |r| == |rows| && forall i :: 0 <= i < |rows| ==> r[i] == rows[i].totalPayout.GetOr(0.0)
  {
    seq(|rows|, i requires 0 <= i < |rows| => rows[i].totalPayout.GetOr(0.0))
  }

  /** `payout_by_month`: rows without a payout are dropped, then one row per (month, type)
      that occurs, holding the sum of its payouts, in chronological order. */
  function PayoutByMonth(combined: seq<SummaryRow>): (r: seq<((MonthKey, string), real)>)
    ensures var kept := Filter(combined, HasPayout);
      && StrictlySorted(Firsts(r), PairLess)
      && (forall k :: k in Firsts(r) <==> k in PayoutKeys(kept))
      && forall i :: 0 <= i < |r| ==> r[i].1 == SumFor(PayoutKeys(kept), Payouts(kept), r[i].0)
  {
    var kept := Filter(combined, HasPayout);
    var keys, vals := PayoutKeys(kept), Payouts(kept);
    var sums := GroupSum(keys, vals);
    PairLessIsStrictTotal();
    var order := SortUnique(keys, PairLess);
    var r := seq(|order|, i requires 0 <= i < |order| => (order[i], sums[order[i]]));
    assert Firsts(r) == order;
    r
  }

  /** Grouping neither loses nor double-counts a payout: the rows of `payout_by_month` add
      up to the payouts of the combined rows. */
  lemma PayoutByMonthConserves(combined: seq<SummaryRow>)
    ensures Sum(Seconds(PayoutByMonth(combined))) == Sum(Payouts(Filter(combined, HasPayout)))
  {
    var kept := Filter(combined, HasPayout);
    var keys, vals := PayoutKeys(kept), Payouts(kept);
    var r := PayoutByMonth(combined);
    var order := Firsts(r);
    assert forall i :: 0 <= i < |order| ==> order[i] in keys;
    SumGroupValues(keys, vals, order);
    assert Seconds(r) == GroupValues(GroupSum(keys, vals), order);
    PairLessIsStrictTotal();
    assert Distinct(order);
    assert forall i :: 0 <= i < |keys| ==> keys[i] in order;
    SumOverCoveringKeys(keys, vals, order);
  }

  // ------------------------------------------------------------ KPIs

  function Shares(rows: seq<RevShareRow>): (r: seq<Option<real>>)
    ensures |r| == |rows| && forall i :: 0 <= i < |rows| ==> r[i] == rows[i].revShareTotal
  {
    seq(|rows|, i requires 0 <= i < |rows| => rows[i].revShareTotal)
  }

  function Productions(rows: seq<RevShareRow>): (r: seq<Option<real>>)
    ensures |r| == |rows| && forall i :: 0 <= i < |rows| ==> r[i] == rows[i].totalRevShareMonth
  {
    seq(|rows|, i requires 0 <= i < |rows| => rows[i].totalRevShareMonth)
  }

  function Amounts(rows: seq<SummaryRow>): (r: seq<Option<real>>)
    ensures |r| == |rows| && forall i :: 0 <= i < |rows| ==> r[i] == rows[i].amount
  {
    seq(|rows|, i requires 0 <= i < |rows| => rows[i].amount)
  }

  datatype Kpis = Kpis(totalProductionRevenue: real, totalHours: real, totalShare: real)

  /** The three KPIs, filled only when some entry type has selected rows: production
      revenue and share summed over the revenue rows, hours over the time entries that
      have a payout (the rows left after `dropna`). Missing values are skipped. */
  function KpiValues(rev: seq<RevShareRow>, frames: seq<seq<SummaryRow>>): (r: Option<Kpis>)
    ensures r.None? <==> frames == []
    ensures r.Some? ==>
      && r.value.totalProductionRevenue == SumPresent(Productions(rev))
      && r.value.totalShare == SumPresent(Shares(rev))
      && r.value.totalHours == SumPresent(Amounts(Filter(Concat(frames), HasPayout)))
  {
    if frames == [] then None
    else
      Some(Kpis(SumPresent(Productions(rev)), SumPresent(Amounts(Filter(Concat(frames), HasPayout))),
                SumPresent(Shares(rev))))
  }

  /** The KPIs stay empty exactly when none of the three entry types has a selected entry. */
  lemma KpisShownIffEntries(entries: seq<seq<TimeEntry>>, start: Date, end: Date, selected: Option<string>)
    requires |entries| == 3
    ensures Filter(AllFrames(entries, start, end, selected), NonEmpty) == [] <==>
      forall i :: 0 <= i < 3 ==> FilterEntries(entries[i], start, end, selected) == []
  {
    var all := AllFrames(entries, start, end, selected);
    var frames := Filter(all, NonEmpty);
    if frames == [] {
      forall i | 0 <= i < 3 ensures FilterEntries(entries[i], start, end, selected) == [] {
        assert all[i] in all;
        assert all[i] !in frames;
      }
    } else {
      var f := frames[0];
      assert f in all && f != [];
      var i :| 0 <= i < 3 && all[i] == f;
      assert |FilterEntries(entries[i], start, end, selected)| == |f|;
    }
  }

  /** An entry without a payout adds nothing to the hours KPI, even when it has hours. */
  lemma HoursNeedAPayout(d: Date)
    ensures SumPresent(Amounts(Filter([SummaryRow(d, None, "FONE", Some(5.0))], HasPayout))) == 0.0
  {
    var row := SummaryRow(d, None, "FONE", Some(5.0));
    FilterSnoc([], row, HasPayout);
    assert [] + [row] == [row];
  }
}
