/** The Streamlit Settings tab (Tabs/Settings.py): the default settings document, filling
    the session from it, editing the weekly goals, saving, and the per-person preview.
    Reading and writing `settings.json` and the staff CSV are outside the model: the parsed
    file (if any) and the staff column are inputs, and a save returns the document written. */
module SettingsPy {
  import opened Wrappers
  import opened Sorting
  import opened Aggregate
  import opened Text
  import opened Session
  import opened SettingsDoc

  // ------------------------------------------------------------ staff choices

  /** `unique_staff_list`: the staff abbreviations that occur, without nulls, each once, in
      code-point order. */
  function UniqueStaffList(names: seq<Option<string>>): (r: seq<string>)
    ensures StrictlySorted(r, StrLess) && Distinct(r)
    ensures forall x :: x in r <==> Some(x) in names
  {
    StrLessIsStrictTotal();
    SortUnique(Somes(names), StrLess)
  }

  // ------------------------------------------------------------ defaults

  /** The keys of `DEFAULT_STAFF_WEEKLY_GOALS`, in their order. */
  const DefaultStaff: seq<string> := ["AEZ", "BPL", "CAJ", "JER", "JRJ", "RAW", "TGF", "KWD", "JMG"]

  /** `DEFAULT_STAFF_WEEKLY_GOALS`: 20 hours a week for each default staff member. */
  const DefaultStaffWeeklyGoals: map<string, int> := map s | s in DefaultStaff :: 20

  const DefaultHours: int := 910
  const DefaultRevenue: int := 2_000_000

  /** The default document has nine different staff, the same nine as the goal
      dictionary, each with a goal of 20. */
  lemma DefaultsAreNineStaffAtTwenty()
    ensures |DefaultStaff| == 9 && Distinct(DefaultStaff)
    ensures forall s :: s in DefaultStaffWeeklyGoals <==> s in DefaultStaff
    ensures forall s :: s in DefaultStaffWeeklyGoals ==> DefaultStaffWeeklyGoals[s] == 20
  {
  }

  /** A settings document as read from JSON: any of its keys may be missing. */
  datatype SavedSettings = SavedSettings(
    tresholdHours: Option<int>,
    tresholdRevenue: Option<int>,
    customStaffList: Option<seq<string>>,
    staffWeeklyGoals: Option<map<string, int>>)

  /** `load_threshold_settings`: the file's contents when it exists, else the defaults. */
  function LoadThresholdSettings(file: Option<SavedSettings>): (r: SavedSettings)
    ensures file.Some? ==> r == file.value
    ensures file.None? ==>
      && r.tresholdHours == Some(910) && r.tresholdRevenue == Some(2_000_000)
      && r.customStaffList == Some(DefaultStaff) && r.staffWeeklyGoals == Some(DefaultStaffWeeklyGoals)
  {
    match file
    case Some(saved) => saved
    case None => SavedSettings(Some(DefaultHours), Some(DefaultRevenue), Some(DefaultStaff), Some(DefaultStaffWeeklyGoals))
  }

  // ------------------------------------------------------------ session

  const HoursKey: string := "treshold_hours"
  const RevenueKey: string := "treshold_revenue"
  const StaffKey: string := "custom_staff_list"
  const GoalsKey: string := "staff_weekly_goals"

  /** `if key not in st.session_state: st.session_state[key] = value`. */
  function Fill(store: map<string, Value>, key: string, value: Value): (r: map<string, Value>)
    ensures key in r && r[key] == if key in store then store[key] else value
    ensures forall k :: k in r <==> k in store || k == key
    ensures forall k :: k in store ==> r[k] == store[k]
  {
    if key in store then store else store[key := value]
  }

  /** The session after `_ensure_session_defaults`: each of the four settings keys that was
      missing gets the document's value, or its default when the document lacks it. */
  function SessionDefaults(store: map<string, Value>, saved: SavedSettings): (r: map<string, Value>)
    ensures forall k :: k in store ==> k in r && r[k] == store[k]
    ensures forall k :: k in r <==> k in store || k in {HoursKey, RevenueKey, StaffKey, GoalsKey}
    ensures HoursKey !in store ==> r[HoursKey] == IntValue(saved.tresholdHours.GetOr(910))
    ensures RevenueKey !in store ==> r[RevenueKey] == IntValue(saved.tresholdRevenue.GetOr(2_000_000))
    ensures StaffKey !in store ==> r[StaffKey] == ListValue(saved.customStaffList.GetOr(DefaultStaff))
    ensures GoalsKey !in store ==> r[GoalsKey] == GoalsValue(saved.staffWeeklyGoals.GetOr(DefaultStaffWeeklyGoals))
  {
    var s1 := Fill(store, HoursKey, IntValue(saved.tresholdHours.GetOr(DefaultHours)));
    var s2 := Fill(s1, RevenueKey, IntValue(saved.tresholdRevenue.GetOr(DefaultRevenue)));
    var s3 := Fill(s2, StaffKey, ListValue(saved.customStaffList.GetOr(DefaultStaff)));
    Fill(s3, GoalsKey, GoalsValue(saved.staffWeeklyGoals.GetOr(DefaultStaffWeeklyGoals)))
  }

  /** Filling the defaults a second time changes nothing. */
  lemma SessionDefaultsIdempotent(store: map<string, Value>, saved: SavedSettings)
    ensures SessionDefaults(SessionDefaults(store, saved), saved) == SessionDefaults(store, saved)
  {
    var r := SessionDefaults(store, saved);
    var r' := SessionDefaults(r, saved);
    assert forall k :: k in r' <==> k in r;
  }

  /** `_ensure_session_defaults`. */
  method EnsureSessionDefaults(session: SessionState, file: Option<SavedSettings>)
    modifies session
    ensures session.store == SessionDefaults(old(session.store), LoadThresholdSettings(file))
  {
    var saved := LoadThresholdSettings(file);
    session.store := Fill(session.store, HoursKey, IntValue(saved.tresholdHours.GetOr(DefaultHours)));
    session.store := Fill(session.store, RevenueKey, IntValue(saved.tresholdRevenue.GetOr(DefaultRevenue)));
    session.store := Fill(session.store, StaffKey, ListValue(saved.customStaffList.GetOr(DefaultStaff)));
    session.store := Fill(session.store, GoalsKey, GoalsValue(saved.staffWeeklyGoals.GetOr(DefaultStaffWeeklyGoals)));
  }

  /** The settings the session holds, when all four keys hold values of the right kind. */
  function SessionThresholds(store: map<string, Value>): (r: Option<Thresholds>)
    ensures r.Some? <==>
      && HoursKey in store && store[HoursKey].IntValue?
      && RevenueKey in store && store[RevenueKey].IntValue?
      && StaffKey in store && store[StaffKey].ListValue?
      && GoalsKey in store && store[GoalsKey].GoalsValue?
  {
    if && HoursKey in store && store[HoursKey].IntValue?
       && RevenueKey in store && store[RevenueKey].IntValue?
       && StaffKey in store && store[StaffKey].ListValue?
       && GoalsKey in store && store[GoalsKey].GoalsValue?
    then Some(Thresholds(store[HoursKey].i, store[RevenueKey].i, store[StaffKey].items, store[GoalsKey].goals))
    else None
  }

  /** A session without any of the settings holds a complete set of them once the defaults
      are filled in, whatever the settings file holds. */
  lemma DefaultsCompleteSession(store: map<string, Value>, file: Option<SavedSettings>)
    requires HoursKey !in store && RevenueKey !in store && StaffKey !in store && GoalsKey !in store
    ensures SessionThresholds(SessionDefaults(store, LoadThresholdSettings(file))).Some?
  {
  }

  // ------------------------------------------------------------ weekly goals

  /** The goal a staff member's input starts from: the current goal, else the default
      goal, else 20. */
  function InitialGoal(current: map<string, int>, staff: string): (r: int)
    ensures staff in current ==> r == current[staff]
    ensures staff !in current ==> r == 20
  {
    if staff in current then current[staff]
    else if staff in DefaultStaffWeeklyGoals then DefaultStaffWeeklyGoals[staff]
    else 20
  }

  /** `updated_goals`: one input per selected staff member, bounded 0..60. An input keeps
      the number the user typed (`typed`), else shows its starting goal; a starting goal
      outside the bounds makes the number input raise, reported here as the staff member. */
  method EditGoals(selected: seq<string>, current: map<string, int>, typed: map<string, int>)
    returns (r: Result<map<string, int>, string>)
    requires forall s :: s in typed ==> 0 <= typed[s] <= 60
    ensures r.Ok? <==> forall s :: s in selected ==> 0 <= InitialGoal(current, s) <= 60
    ensures r.Ok? ==> forall s :: s in r.value <==> s in selected
    ensures r.Ok? ==> forall s :: s in r.value ==>
      r.value[s] == (if s in typed then typed[s] else InitialGoal(current, s)) && 0 <= r.value[s] <= 60
    ensures r.Err? ==> r.error in selected && !(0 <= InitialGoal(current, r.error) <= 60)
  {
    var goals: map<string, int> := map[];
    for i := 0 to |selected|
      invariant forall s :: s in goals <==> s in selected[..i]
      invariant forall s :: s in selected[..i] ==> 0 <= InitialGoal(current, s) <= 60
      invariant forall s :: s in goals ==>
        goals[s] == (if s in typed then typed[s] else InitialGoal(current, s)) && 0 <= goals[s] <= 60
    {
      var staff := selected[i];
      var initial := InitialGoal(current, staff);
      if !(0 <= initial <= 60) {
        return Err(staff);
      }
      goals := goals[staff := if staff in typed then typed[staff] else initial];
      assert selected[..i + 1] == selected[..i] + [staff];
    }
    assert selected[..|selected|] == selected;
    return Ok(goals);
  }

  // ------------------------------------------------------------ save

  /** The document the save button writes: the typed thresholds, and the selection with
      its edited goals, or the current list and goals when nothing is selected. */
  function SavedDocument(selected: seq<string>, newHours: int, newRevenue: int, edited: map<string, int>,
                         currentList: seq<string>, currentGoals: map<string, int>): (r: Thresholds)
    ensures r.tresholdHours == newHours && r.tresholdRevenue == newRevenue
    ensures selected == [] ==> r.customStaffList == currentList && r.staffWeeklyGoals == currentGoals
    ensures selected != [] ==> r.customStaffList == selected && r.staffWeeklyGoals == edited
  {
    if selected != [] then Thresholds(newHours, newRevenue, selected, edited)
    else Thresholds(newHours, newRevenue, currentList, currentGoals)
  }

  /** With a selection, the saved goals are exactly those of the saved staff: the goals of
      staff who were dropped are not kept. */
  lemma SavedGoalsMatchSavedStaff(selected: seq<string>, newHours: int, newRevenue: int, current: map<string, int>,
                                  typed: map<string, int>, edited: map<string, int>, currentList: seq<string>)
    requires selected != []
    requires forall s :: s in edited <==> s in selected
    ensures forall s :: s in SavedDocument(selected, newHours, newRevenue, edited, currentList, current).staffWeeklyGoals
                    <==> s in SavedDocument(selected, newHours, newRevenue, edited, currentList, current).customStaffList
  {
  }

  /** The session after a save: the four settings keys hold the document's fields. */
  function WriteDocument(store: map<string, Value>, doc: Thresholds): (r: map<string, Value>)
    ensures SessionThresholds(r) == Some(doc)
    ensures forall k :: k in r <==> k in store || k in {HoursKey, RevenueKey, StaffKey, GoalsKey}
    ensures forall k :: k in store && k !in {HoursKey, RevenueKey, StaffKey, GoalsKey} ==> r[k] == store[k]
  {
    store[HoursKey := IntValue(doc.tresholdHours)][RevenueKey := IntValue(doc.tresholdRevenue)]
         [StaffKey := ListValue(doc.customStaffList)][GoalsKey := GoalsValue(doc.staffWeeklyGoals)]
  }

  /** The save branch of `run_settings`: writes the document and copies it into the session. */
  method SaveSettings(session: SessionState, selected: seq<string>, newHours: int, newRevenue: int,
                      edited: map<string, int>, currentList: seq<string>, currentGoals: map<string, int>)
    returns (doc: Thresholds)
    modifies session
    ensures doc == SavedDocument(selected, newHours, newRevenue, edited, currentList, currentGoals)
    ensures session.store == WriteDocument(old(session.store), doc)
  {
    var goalsToSave := if selected != [] then edited else currentGoals;
    doc := Thresholds(newHours, newRevenue, if selected != [] then selected else currentList, goalsToSave);
    session.store := session.store[HoursKey := IntValue(newHours)];
    session.store := session.store[RevenueKey := IntValue(newRevenue)];
    session.store := session.store[StaffKey := ListValue(doc.customStaffList)];
    session.store := session.store[GoalsKey := GoalsValue(goalsToSave)];
  }

  // ------------------------------------------------------------ preview

  /** Revenue per lawyer: the revenue goal split evenly, 0 when nobody is selected. */
  function PerLawyerRevenue(revenue: int, count: nat): (r: real)
    ensures count > 0 ==> r * count as real == revenue as real
    ensures count == 0 ==> r == 0.0
  {
    if count > 0 then revenue as real / count as real else 0.0
  }

  datatype Preview = Preview(monthlyHours: real, weeklyHours: real, revenuePerLawyer: real, goals: seq<(string, int)>)

  /** The live preview, shown only when staff are selected: the annual hours goal per month
      and per week, the revenue goal per selected lawyer, and each selected lawyer's goal
      (edited, else current, else 20). */
  function PreviewFor(selected: seq<string>, newHours: int, newRevenue: int, edited: map<string, int>,
                      current: map<string, int>): (r: Option<Preview>)
    ensures r.None? <==> selected == []
    ensures r.Some? ==>
      && r.value.monthlyHours * 12.0 == newHours as real
      && r.value.weeklyHours * 52.0 == newHours as real
      && r.value.revenuePerLawyer * |selected| as real == newRevenue as real
      && |r.value.goals| == |selected|
      && forall i :: 0 <= i < |selected| ==>
           r.value.goals[i] == (selected[i], if selected[i] in edited then edited[selected[i]]
                                             else if selected[i] in current then current[selected[i]] else 20)
  {
    if selected == [] then None
    else
      var goals := seq(|selected|, i requires 0 <= i < |selected| =>
        (selected[i], if selected[i] in edited then edited[selected[i]]
                      else if selected[i] in current then current[selected[i]] else 20));
      Some(Preview(newHours as real / 12.0, newHours as real / 52.0, PerLawyerRevenue(newRevenue, |selected|), goals))
  }

  /** The preview shows the goals that a save of the same edits writes. */
  lemma PreviewShowsSavedGoals(selected: seq<string>, newHours: int, newRevenue: int, edited: map<string, int>,
                               current: map<string, int>, currentList: seq<string>)
    requires selected != []
    requires forall s :: s in edited <==> s in selected
    ensures var doc := SavedDocument(selected, newHours, newRevenue, edited, currentList, current);
            var p := PreviewFor(selected, newHours, newRevenue, edited, current).value;
            forall i :: 0 <= i < |p.goals| ==>
              p.goals[i].0 == doc.customStaffList[i] && p.goals[i].1 == doc.staffWeeklyGoals[p.goals[i].0]
  {
  }
}
