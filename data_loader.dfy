/** The three source tables and the date features `load_data` derives for them
    (data_loader.py). Reading the CSV files and their modification times is outside the
    model: the parsed rows and the three times are inputs. */
module DataLoader {
  import opened Wrappers
  import opened Calendar

  /** A revenue-share row. Missing numbers are `None` (NaN / absent in JSON). */
  datatype RevenueRow = RevenueRow(
    staff: Option<string>,
    date: Date,
    totalRevShareMonth: Option<real>,
    originationFees: Option<real>)

  /** A billable-hours row. */
  datatype HoursRow = HoursRow(staff: Option<string>, date: Date, amount: Option<real>)

  /** A matter row: the creation date is `None` when its text does not parse
      (`pd.to_datetime(..., errors="coerce")`), and up to three assigned staff. */
  datatype MatterRow = MatterRow(
    date: Option<Date>,
    staff1: Option<string>,
    staff2: Option<string>,
    staff3: Option<string>)

  datatype LoadedRevenue = LoadedRevenue(row: RevenueRow, monthDate: Date, weekDate: int, month: MonthKey, week: int)
  datatype LoadedHours = LoadedHours(row: HoursRow, month: MonthKey, week: int)
  datatype LoadedMatter = LoadedMatter(row: MatterRow, week: Option<int>)

  /** Hours: `Month` is the row's `YYYY-MM`, `Week` the Monday on or before its date. */
  function DeriveHours(h: HoursRow): (r: LoadedHours)
    ensures r.row == h && r.month == MonthOf(h.date)
    ensures WeekdayOf(r.week) == 0 && r.week <= Ordinal(h.date) <= r.week + 6
  {
    LoadedHours(h, MonthOf(h.date), WeekKey(h.date))
  }

  /** Revenue: `MonthDate` is the first day of the row's month and names the same month as
      `Month`; `WeekDate` and `Week` are the same Monday. */
  function DeriveRevenue(v: RevenueRow): (r: LoadedRevenue)
    ensures r.row == v
    ensures r.month == MonthOf(v.date) && MonthOf(r.monthDate) == r.month
    ensures r.monthDate.day == 1 && OnOrBefore(r.monthDate, v.date)
    ensures r.weekDate == r.week
    ensures WeekdayOf(r.week) == 0 && r.week <= Ordinal(v.date) <= r.week + 6
  {
    LoadedRevenue(v, MonthStart(v.date), WeekKey(v.date), MonthOf(v.date), WeekKey(v.date))
  }

  /** Matters: a row whose date did not parse is kept, with no `Week`. */
  function DeriveMatter(m: MatterRow): (r: LoadedMatter)
    ensures r.row == m
    ensures r.week.Some? <==> m.date.Some?
    ensures m.date.Some? ==>
      WeekdayOf(r.week.value) == 0 && r.week.value <= Ordinal(m.date.value) <= r.week.value + 6
  {
    match m.date
    case Some(d) => LoadedMatter(m, Some(WeekKey(d)))
    case None => LoadedMatter(m, None)
  }

  /** The three CSV files, in the order `load_data` lists them. */
  datatype SourceFile = RevenueCsv | HoursCsv | MattersCsv

  const SourceFiles: seq<SourceFile> := [RevenueCsv, HoursCsv, MattersCsv]

  /** `mtime_key`: one modification time per source file, in the fixed order. */
  function MtimeKey(mtime: SourceFile -> real): (k: seq<real>)
    ensures |k| == |SourceFiles| == 3
    ensures forall i :: 0 <= i < 3 ==> k[i] == mtime(SourceFiles[i])
  {
    [mtime(RevenueCsv), mtime(HoursCsv), mtime(MattersCsv)]
  }

  datatype Loaded = Loaded(
    revenue: seq<LoadedRevenue>,
    hours: seq<LoadedHours>,
    matters: seq<LoadedMatter>,
    mtimeKey: seq<real>)

  /** `load_data`: every row is kept, in order, with its derived date features, together
      with the cache key of the three files' modification times. */
  function LoadData(revenue: seq<RevenueRow>, hours: seq<HoursRow>, matters: seq<MatterRow>,
                    mtime: SourceFile -> real): (r: Loaded)
    ensures |r.revenue| == |revenue| && |r.hours| == |hours| && |r.matters| == |matters|
    ensures forall i :: 0 <= i < |revenue| ==> r.revenue[i] == DeriveRevenue(revenue[i])
    ensures forall i :: 0 <= i < |hours| ==> r.hours[i] == DeriveHours(hours[i])
    ensures forall i :: 0 <= i < |matters| ==> r.matters[i] == DeriveMatter(matters[i])
    ensures r.mtimeKey == MtimeKey(mtime)
  {
    Loaded(
      seq(|revenue|, i requires 0 <= i < |revenue| => DeriveRevenue(revenue[i])),
      seq(|hours|, i requires 0 <= i < |hours| => DeriveHours(hours[i])),
      seq(|matters|, i requires 0 <= i < |matters| => DeriveMatter(matters[i])),
      MtimeKey(mtime))
  }
}
