/** The Streamlit entry script (streamlit_app.py): initialising the settings in the session,
    the sign-in gate, the last-update time, the tabs the signed-in user may open, and the
    bounds and defaults of the date-range picker. Dates are day numbers (`Calendar.Ordinal`);
    the timezone conversions of the script are not modelled. */
module StreamlitApp {
  import opened Wrappers
  import opened Calendar
  import opened Aggregate
  import opened Session
  import opened SettingsDoc
  import opened SettingsPy
  import opened Auth
  import DataLoader

  // ------------------------------------------------------------ settings in the session

  /** Some of the four settings keys is not in the session yet. */
  predicate AnyMissing(store: map<string, Value>) {
    HoursKey !in store || RevenueKey !in store || StaffKey !in store || GoalsKey !in store
  }

  /** All four settings keys set from the document, each falling back to its default. */
  function WithSettings(store: map<string, Value>, saved: SavedSettings): (r: map<string, Value>)
    ensures HoursKey in r && r[HoursKey] == IntValue(saved.tresholdHours.GetOr(910))
    ensures RevenueKey in r && r[RevenueKey] == IntValue(saved.tresholdRevenue.GetOr(2_000_000))
    ensures StaffKey in r && r[StaffKey] == ListValue(saved.customStaffList.GetOr(DefaultStaff))
    ensures GoalsKey in r && r[GoalsKey] == GoalsValue(saved.staffWeeklyGoals.GetOr(DefaultStaffWeeklyGoals))
    ensures forall k :: k !in {HoursKey, RevenueKey, StaffKey, GoalsKey} ==>
      (k in r <==> k in store) && (k in r ==> r[k] == store[k])
  {
    store[HoursKey := IntValue(saved.tresholdHours.GetOr(DefaultHours))]
         [RevenueKey := IntValue(saved.tresholdRevenue.GetOr(DefaultRevenue))]
         [StaffKey := ListValue(saved.customStaffList.GetOr(DefaultStaff))]
         [GoalsKey := GoalsValue(saved.staffWeeklyGoals.GetOr(DefaultStaffWeeklyGoals))]
  }

  /** The session after the script's initialisation: untouched when all four keys are
      there; otherwise all four are (re)written from the document, including any that were
      already set. */
  function InitialSettings(store: map<string, Value>, saved: SavedSettings): map<string, Value> {
    if AnyMissing(store) then WithSettings(store, saved) else store
  }

  /** Lines 50-64 of the script; the document is `load_threshold_settings()`, whose defaults
      are those of the Settings tab. */
  method InitSettings(session: SessionState, file: Option<SavedSettings>)
    modifies session
    ensures session.store == InitialSettings(old(session.store), LoadThresholdSettings(file))
  {
    if AnyMissing(session.store) {
      var saved := LoadThresholdSettings(file);
      session.store := WithSettings(session.store, saved);
    }
  }

  /** After initialisation the session holds all four settings with values of the right
      kind; when it had to load, they are the document's values or the defaults. */
  lemma InitialSettingsComplete(store: map<string, Value>, saved: SavedSettings)
    requires AnyMissing(store)
    ensures SessionThresholds(InitialSettings(store, saved)) == Some(Thresholds(
      saved.tresholdHours.GetOr(910), saved.tresholdRevenue.GetOr(2_000_000),
      saved.customStaffList.GetOr(DefaultStaff), saved.staffWeeklyGoals.GetOr(DefaultStaffWeeklyGoals)))
  {
  }

  /** A rerun of the script does not reload: whatever the document holds then, the
      session stays as the first run left it. */
  lemma InitialSettingsStable(store: map<string, Value>, saved: SavedSettings, later: SavedSettings)
    ensures InitialSettings(InitialSettings(store, saved), later) == InitialSettings(store, saved)
  {
    if AnyMissing(store) {
      var r := WithSettings(store, saved);
      assert HoursKey in r && RevenueKey in r && StaffKey in r && GoalsKey in r;
    }
  }

  /** Once the script has initialised the session, the Settings tab's own default filling
      changes nothing. */
  lemma SettingsTabAddsNothing(store: map<string, Value>, saved: SavedSettings, later: SavedSettings)
    ensures SessionDefaults(InitialSettings(store, saved), later) == InitialSettings(store, saved)
  {
    var r := InitialSettings(store, saved);
    if AnyMissing(store) {
      assert HoursKey in r && RevenueKey in r && StaffKey in r && GoalsKey in r;
    }
    if !AnyMissing(r) {
      assert SessionDefaults(r, later).Keys == r.Keys;
    }
  }

  /** Unlike the Settings tab, the script overwrites a setting already in the session when
      another one is missing. */
  lemma InitialSettingsOverwrites(store: map<string, Value>, saved: SavedSettings)
    requires HoursKey in store && store[HoursKey] == IntValue(100) && GoalsKey !in store
    requires saved.tresholdHours == Some(910)
    ensures InitialSettings(store, saved)[HoursKey] == IntValue(910)
    ensures SessionDefaults(store, saved)[HoursKey] == IntValue(100)
  {
  }

  // ------------------------------------------------------------ sign-in gate

  /** Python truthiness of a session value. */
  predicate Truthy(v: Value) {
    match v
    case IntValue(i) => i != 0
    case TextValue(s) => s != ""
    case FlagValue(b) => b
    case ListValue(items) => items != []
    case GoalsValue(goals) => goals != map[]
  }

  /** The dashboard is shown only when `authenticated` is present and truthy; otherwise
      the login form is shown and the script stops. */
  predicate ShowsDashboard(store: map<string, Value>) {
    AuthenticatedKey in store && Truthy(store[AuthenticatedKey])
  }

  /** A successful login opens the dashboard under the typed address with the record's
      tabs; a logout closes it again. */
  lemma SignInOpensSignOutCloses(store: map<string, Value>, users: seq<(string, UserRecord)>, email: string, password: string)
    requires Authenticate(users, email, password).Ok?
    ensures var signedIn := SignedIn(store, email, Authenticate(users, email, password).value);
      && ShowsDashboard(signedIn)
      && Username(signedIn) == email
      && AllowedTabs(signedIn) == Authenticate(users, email, password).value.allowedTabs
      && !ShowsDashboard(SignedOut(signedIn))
  {
  }

  /** `st.session_state.get("username", "User")`. */
  function Username(store: map<string, Value>): string {
    if UsernameKey in store && store[UsernameKey].TextValue? then store[UsernameKey].s else "User"
  }

  /** `st.session_state.get("allowed_tabs", [])`. */
  function AllowedTabs(store: map<string, Value>): seq<string> {
    if AllowedTabsKey in store && store[AllowedTabsKey].ListValue? then store[AllowedTabsKey].items else []
  }

  // ------------------------------------------------------------ last update

  /** `max(mtime_key)`. */
  function Latest(xs: seq<real>): (r: real)
    requires xs != []
    ensures r in xs && forall x :: x in xs ==> x <= r
  {
    if |xs| == 1 then xs[0]
    else
      var m := Latest(xs[..|xs| - 1]);
      assert forall x :: x in xs ==> x in xs[..|xs| - 1] || x == xs[|xs| - 1];
      if xs[|xs| - 1] > m then xs[|xs| - 1] else m
  }

  /** The time shown as "Last data update": none for an empty key (shown as "Unknown"),
      otherwise the most recent modification time. */
  function LastUpdate(mtimeKey: seq<real>): (r: Option<real>)
    ensures r.None? <==> mtimeKey == []
    ensures r.Some? ==> r.value in mtimeKey && forall x :: x in mtimeKey ==> x <= r.value
  {
    if mtimeKey == [] then None else Some(Latest(mtimeKey))
  }

  /** For the key `load_data` returns, the time shown is that of the most recently
      modified of the three files. */
  lemma LastUpdateOfLoadedFiles(revenue: seq<DataLoader.RevenueRow>, hours: seq<DataLoader.HoursRow>,
                                 matters: seq<DataLoader.MatterRow>, mtime: DataLoader.SourceFile -> real)
    ensures var r := LastUpdate(DataLoader.LoadData(revenue, hours, matters, mtime).mtimeKey);
      && r.Some?
      && (r.value == mtime(DataLoader.RevenueCsv) || r.value == mtime(DataLoader.HoursCsv) || r.value == mtime(DataLoader.MattersCsv))
      && mtime(DataLoader.RevenueCsv) <= r.value && mtime(DataLoader.HoursCsv) <= r.value && mtime(DataLoader.MattersCsv) <= r.value
  {
    var k := DataLoader.LoadData(revenue, hours, matters, mtime).mtimeKey;
    assert k == DataLoader.MtimeKey(mtime);
    assert k[0] in k && k[1] in k && k[2] in k;
    assert forall x :: x in k ==> x == k[0] || x == k[1] || x == k[2];
  }

  // ------------------------------------------------------------ tabs

  /** `tab_options`: each tab's key and display name, in order. */
  const TabOptions: seq<(string, string)> :=
    [("RLGDashboard", "RLG Dashboard"), ("RevShare", "Revenue Share"), ("Settings", "Settings")]

  /** The place of a display name in `tab_options`. */
  function TabRank(name: string): int {
    if name == "RLG Dashboard" then 0 else if name == "Revenue Share" then 1 else 2
  }

  lemma TabOptionsFacts()
    ensures Distinct(TabOptions)
    ensures forall m :: 0 <= m < |TabOptions| ==> TabRank(TabOptions[m].1) == m
    ensures forall m, n :: 0 <= m < n < |TabOptions| ==> TabOptions[m].0 != TabOptions[n].0 && TabOptions[m].1 != TabOptions[n].1
  {
  }

  /** Whether a tab option's key is among the allowed ones. */
  function KeyAllowed(allowed: seq<string>): ((string, string)) -> bool {
    (o: (string, string)) => o.0 in allowed
  }

  /** `visible_tabs`: the display names of the tabs whose key is allowed, in `tab_options`
      order. */
  function VisibleTabs(allowed: seq<string>): (r: seq<string>)
    ensures forall l :: l in r <==> exists m :: 0 <= m < |TabOptions| && TabOptions[m].0 in allowed && TabOptions[m].1 == l
    ensures forall i, j :: 0 <= i < j < |r| ==> TabRank(r[i]) < TabRank(r[j])
  {
    var kept := Filter(TabOptions, KeyAllowed(allowed));
    VisibleTabsOrdered(allowed, kept);
    VisibleTabsMembers(allowed, kept);
    Seconds(kept)
  }

  lemma VisibleTabsOrdered(allowed: seq<string>, kept: seq<(string, string)>)
    requires kept == Filter(TabOptions, KeyAllowed(allowed))
    ensures forall i, j :: 0 <= i < j < |kept| ==> TabRank(kept[i].1) < TabRank(kept[j].1)
  {
    TabOptionsFacts();
    FilterKeepsOrder(TabOptions, KeyAllowed(allowed));
    forall k | 0 <= k < |kept|
      ensures TabRank(kept[k].1) == Position(TabOptions, kept[k])
    {
      var m := Position(TabOptions, kept[k]);
      assert TabOptions[m] == kept[k];
    }
  }

  lemma VisibleTabsMembers(allowed: seq<string>, kept: seq<(string, string)>)
    requires kept == Filter(TabOptions, KeyAllowed(allowed))
    ensures forall l :: l in Seconds(kept) <==> exists m :: 0 <= m < |TabOptions| && TabOptions[m].0 in allowed && TabOptions[m].1 == l
  {
    var r := Seconds(kept);
    forall l | l in r
      ensures exists m :: 0 <= m < |TabOptions| && TabOptions[m].0 in allowed && TabOptions[m].1 == l
    {
      var i :| 0 <= i < |r| && r[i] == l;
      assert kept[i] in kept;
      var m := Position(TabOptions, kept[i]);
      assert TabOptions[m] == kept[i];
    }
    forall m | 0 <= m < |TabOptions| && TabOptions[m].0 in allowed
      ensures TabOptions[m].1 in r
    {
      assert TabOptions[m] in kept;
      var i :| 0 <= i < |kept| && kept[i] == TabOptions[m];
      assert r[i] == TabOptions[m].1;
    }
  }

  /** The page goes on only when some tab is visible; with none it warns and stops. */
  function PageTabs(allowed: seq<string>): (r: Option<seq<string>>)
    ensures r.None? <==> forall m :: 0 <= m < |TabOptions| ==> TabOptions[m].0 !in allowed
    ensures r.Some? ==> r.value == VisibleTabs(allowed)
  {
    var visible := VisibleTabs(allowed);
    if visible == [] then
      assert forall m :: 0 <= m < |TabOptions| ==> TabOptions[m].1 !in visible;
      None
    else
      assert visible[0] in visible;
      Some(visible)
  }

  /** `next(k for k, v in tab_options.items() if v[0] == name)`: the first key shown
      under the name. */
  function KeyOfLabel(options: seq<(string, string)>, name: string): (r: string)
    requires exists m :: 0 <= m < |options| && options[m].1 == name
    ensures exists m :: FirstWithName(options, name, m) && options[m].0 == r
  {
    if options[0].1 == name then options[0].0
    else
      var m :| 0 <= m < |options| && options[m].1 == name;
      assert options[1..][m - 1] == options[m];
      var r := KeyOfLabel(options[1..], name);
      KeyOfLabelStep(options, name, r);
      r
  }

  /** Entry `m` is the first one shown under `name`. */
  predicate FirstWithName(options: seq<(string, string)>, name: string, m: int) {
    && 0 <= m < |options| && options[m].1 == name
    && forall j :: 0 <= j < m ==> options[j].1 != name
  }

  lemma KeyOfLabelStep(options: seq<(string, string)>, name: string, r: string)
    requires options != [] && options[0].1 != name
    requires exists m :: FirstWithName(options[1..], name, m) && options[1..][m].0 == r
    ensures exists m :: FirstWithName(options, name, m) && options[m].0 == r
  {
    var m :| FirstWithName(options[1..], name, m) && options[1..][m].0 == r;
    forall j | 1 <= j < m + 1 ensures options[j].1 != name {
      assert options[j] == options[1..][j - 1];
    }
    assert FirstWithName(options, name, m + 1);
  }

  /** `selected_tab_key`. */
  function SelectedTabKey(name: string): string
    requires exists m :: 0 <= m < |TabOptions| && TabOptions[m].1 == name
  {
    KeyOfLabel(TabOptions, name)
  }

  /** Whatever visible tab the user picks, the page run is one the user is allowed. */
  lemma SelectedTabIsAllowed(allowed: seq<string>, name: string)
    requires name in VisibleTabs(allowed)
    ensures SelectedTabKey(name) in allowed
    ensures exists m :: 0 <= m < |TabOptions| && TabOptions[m] == (SelectedTabKey(name), name)
  {
    TabOptionsFacts();
  }

  // ------------------------------------------------------------ date picker

  /** The picker's bounds and default range, as day numbers. */
  datatype DateBounds = DateBounds(minDate: int, maxDate: int, defaultStart: int, defaultEnd: int)

  /** 2025-01-01, the earliest day the picker allows. */
  const Baseline: int := Ordinal(Civil(2025, 1, 1))

  function Smallest(xs: seq<int>): (r: int)
    requires xs != []
    ensures r in xs && forall x :: x in xs ==> r <= x
  {
    if |xs| == 1 then xs[0]
    else
      var m := Smallest(xs[..|xs| - 1]);
      assert forall x :: x in xs ==> x in xs[..|xs| - 1] || x == xs[|xs| - 1];
      if xs[|xs| - 1] < m then xs[|xs| - 1] else m
  }

  function Largest(xs: seq<int>): (r: int)
    requires xs != []
    ensures r in xs && forall x :: x in xs ==> x <= r
  {
    if |xs| == 1 then xs[0]
    else
      var m := Largest(xs[..|xs| - 1]);
      assert forall x :: x in xs ==> x in xs[..|xs| - 1] || x == xs[|xs| - 1];
      if xs[|xs| - 1] > m then xs[|xs| - 1] else m
  }

  function Days(ds: seq<Date>): (r: seq<int>)
    ensures |r| == |ds| && forall i :: 0 <= i < |ds| ==> r[i] == Ordinal(ds[i])
  {
    seq(|ds|, i requires 0 <= i < |ds| => Ordinal(ds[i]))
  }

  lemma DaysMembers(ds: seq<Date>)
    ensures forall d :: d in ds ==> Ordinal(d) in Days(ds)
    ensures forall x :: x in Days(ds) ==> exists d :: d in ds && Ordinal(d) == x
  {
    var r := Days(ds);
    forall x | x in r ensures exists d :: d in ds && Ordinal(d) == x {
      var i :| 0 <= i < |r| && r[i] == x;
      assert ds[i] in ds;
    }
    forall d | d in ds ensures Ordinal(d) in r {
      var i :| 0 <= i < |ds| && ds[i] == d;
      assert r[i] == Ordinal(d);
    }
  }

  function Max(a: int, b: int): int {
    if a >= b then a else b
  }

  function Min(a: int, b: int): int {
    if a <= b then a else b
  }

  /** Lines 188-209: `min_date` is the earliest record, but not before 2025-01-01;
      `max_date` is the day after the latest record; the default range starts on January 1
      of this year (or `min_date`, if later) and ends today (or `max_date`, if earlier). The
      three tables' parsed dates are the inputs. */
  function Bounds(revenue: seq<Date>, hours: seq<Date>, matters: seq<Date>, today: Date): (r: DateBounds)
    requires revenue != [] && hours != [] && matters != []
    ensures forall d :: d in revenue + hours + matters ==> Ordinal(d) < r.maxDate
    ensures exists d :: d in revenue + hours + matters && Ordinal(d) == r.maxDate - 1
    ensures Baseline <= r.minDate
    ensures forall d :: d in revenue + hours + matters ==> r.minDate <= Max(Ordinal(d), Baseline)
    ensures r.minDate == Baseline || exists d :: d in revenue + hours + matters && Ordinal(d) == r.minDate
    ensures r.minDate <= r.defaultStart && Ordinal(YearStart(today.year)) <= r.defaultStart
    ensures r.defaultStart == r.minDate || r.defaultStart == Ordinal(YearStart(today.year))
    ensures r.defaultEnd <= r.maxDate && r.defaultEnd <= Ordinal(today)
    ensures r.defaultEnd == r.maxDate || r.defaultEnd == Ordinal(today)
  {
    var all := revenue + hours + matters;
    var days := Days(all);
    DaysMembers(all);
    var earliest := Smallest(days);
    var latest := Largest(days);
    var minDate := Max(earliest, Baseline);
    var maxDate := latest + 1;
    DateBounds(minDate, maxDate, Max(Ordinal(YearStart(today.year)), minDate), Min(Ordinal(today), maxDate))
  }

  /** When the newest record is older than December 31 of last year, the default start
      (January 1 of this year) lies after `max_date`, outside the range the picker allows,
      and after the default end. */
  lemma StaleDataPutsDefaultStartPastMaxDate(revenue: seq<Date>, hours: seq<Date>, matters: seq<Date>, today: Date)
    requires revenue != [] && hours != [] && matters != []
    requires forall d :: d in revenue + hours + matters ==> Ordinal(d) + 1 < Ordinal(YearStart(today.year))
    ensures var r := Bounds(revenue, hours, matters, today);
      r.maxDate < r.defaultStart && r.defaultEnd < r.defaultStart
  {
  }

  /** An instance: every record dated 2025-03-10, viewed on 2026-10-15. */
  lemma StaleDataExample()
    ensures var day := Civil(2025, 3, 10);
      var r := Bounds([day], [day], [day], Civil(2026, 10, 15));
      r.maxDate < r.defaultStart
  {
    var day: Date := Civil(2025, 3, 10);
    assert Ordinal(day) == 739320;
    assert Ordinal(YearStart(2026)) == 739617;
    assert forall d :: d in [day] + [day] + [day] ==> d == day;
    StaleDataPutsDefaultStartPastMaxDate([day], [day], [day], Civil(2026, 10, 15));
  }

  /** The default range clamped into the picker's bounds: it ends today or on `max_date`
      (but not before `min_date`) and starts on January 1 of this year or on `min_date`
      (but not after the end). */
  function ClampedBounds(revenue: seq<Date>, hours: seq<Date>, matters: seq<Date>, today: Date): (r: DateBounds)
    requires revenue != [] && hours != [] && matters != []
    ensures var b := Bounds(revenue, hours, matters, today);
      && r.minDate == b.minDate && r.maxDate == b.maxDate
      && (r.minDate <= r.maxDate ==> r.minDate <= r.defaultStart <= r.defaultEnd <= r.maxDate)
      && (b.defaultStart <= b.defaultEnd && b.minDate <= b.defaultEnd ==> r == b)
  {
    var b := Bounds(revenue, hours, matters, today);
    var end := Max(b.defaultEnd, b.minDate);
    DateBounds(b.minDate, b.maxDate, Min(b.defaultStart, end), end)
  }
}
