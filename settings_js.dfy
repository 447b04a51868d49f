/** The React Settings page (pages/Settings.jsx). Each handler builds a new settings or
    prebills object from the old one; they are functions here. Fetching and saving over
    HTTP are outside the model: the loaded objects are inputs and the save's result is the
    object it sends. */
module SettingsJs {
  import opened Wrappers
  import opened Sorting
  import opened Aggregate
  import opened Text
  import opened SettingsDoc

  // ------------------------------------------------------------------ staff list

  /** `s => s !== staff`. */
  function NotEqual(staff: string): string -> bool {
    x => x != staff
  }

  /** `list.filter(s => s !== staff)`. */
  function Without(list: seq<string>, staff: string): (r: seq<string>)
    ensures forall x :: x in r <==> x in list && x != staff
  {
    Filter(list, NotEqual(staff))
  }

  /** Removing a staff member listed once leaves every other entry in its place in order. */
  lemma WithoutListed(list: seq<string>, k: nat)
    requires Distinct(list) && k < |list|
    ensures Without(list, list[k]) == list[..k] + list[k + 1..]
  {
    var x := list[k];
    var p := NotEqual(x);
    var before, after := list[..k], list[k + 1..];
    assert forall i :: 0 <= i < |before| ==> p(before[i]) by {
      assert forall i :: 0 <= i < |before| ==> before[i] == list[i];
    }
    assert forall i :: 0 <= i < |after| ==> p(after[i]) by {
      assert forall i :: 0 <= i < |after| ==> after[i] == list[k + 1 + i];
    }
    FilterKeepsAll(before, p);
    FilterKeepsAll(after, p);
    FilterSnoc([], x, p);
    assert [] + [x] == [x];
    FilterAppend(before, [x], p);
    FilterAppend(before + [x], after, p);
    SplitAt(list, k);
    ConcatEmpty(before);
  }

  /** `handleStaffToggle`: a listed staff member is removed, an unlisted one appended; a
      missing or zero goal for them becomes 20. */
  function ToggleStaff(s: Thresholds, staff: string): (r: Thresholds)
    ensures staff in r.customStaffList <==> staff !in s.customStaffList
    ensures forall x :: x != staff ==> (x in r.customStaffList <==> x in s.customStaffList)
    ensures staff !in s.customStaffList ==> r.customStaffList == s.customStaffList + [staff]
    ensures staff in r.staffWeeklyGoals
    ensures r.staffWeeklyGoals[staff] ==
      if staff in s.staffWeeklyGoals && s.staffWeeklyGoals[staff] != 0 then s.staffWeeklyGoals[staff] else 20
    ensures forall x :: x != staff ==>
      (x in r.staffWeeklyGoals <==> x in s.staffWeeklyGoals)
      && (x in s.staffWeeklyGoals ==> r.staffWeeklyGoals[x] == s.staffWeeklyGoals[x])
    ensures r.tresholdHours == s.tresholdHours && r.tresholdRevenue == s.tresholdRevenue
  {
    var list := if staff in s.customStaffList then Without(s.customStaffList, staff)
                else s.customStaffList + [staff];
    var goals := if staff !in s.staffWeeklyGoals || s.staffWeeklyGoals[staff] == 0
                 then s.staffWeeklyGoals[staff := 20] else s.staffWeeklyGoals;
    s.(customStaffList := list, staffWeeklyGoals := goals)
  }

  /** Ticking and then unticking an unlisted staff member restores the list; the goal the
      first toggle gave them stays. */
  lemma ToggleTwice(s: Thresholds, staff: string)
    requires staff !in s.customStaffList
    ensures ToggleStaff(ToggleStaff(s, staff), staff).customStaffList == s.customStaffList
    ensures ToggleStaff(ToggleStaff(s, staff), staff).staffWeeklyGoals == ToggleStaff(s, staff).staffWeeklyGoals
  {
    var list := s.customStaffList;
    var t := ToggleStaff(s, staff);
    assert t.customStaffList == list + [staff];
    var p := NotEqual(staff);
    assert forall i :: 0 <= i < |list| ==> p(list[i]) by {
      assert forall i :: 0 <= i < |list| ==> list[i] in list;
    }
    FilterKeepsAll(list, p);
    FilterSnoc(list, staff, p);
    assert !p(staff);
    ConcatEmpty(list);
  }

  /** Toggling keeps a duplicate-free list duplicate-free. */
  lemma ToggleKeepsDistinct(s: Thresholds, staff: string)
    requires Distinct(s.customStaffList)
    ensures Distinct(ToggleStaff(s, staff).customStaffList)
  {
    var list := s.customStaffList;
    if staff in list {
      var k :| 0 <= k < |list| && list[k] == staff;
      WithoutListed(list, k);
      DistinctRemoveAt(list, k);
    } else {
      DistinctSnoc(list, staff);
    }
  }

  // ------------------------------------------------------------------ goals

  /** `handleGoalChange`: the staff member's goal becomes the typed number (`parseInt`), or 0
      when it does not parse; nothing else changes. */
  function ChangeGoal(s: Thresholds, staff: string, parsed: Option<int>): (r: Thresholds)
    ensures staff in r.staffWeeklyGoals && r.staffWeeklyGoals[staff] == parsed.GetOr(0)
    ensures forall x :: x != staff ==>
      (x in r.staffWeeklyGoals <==> x in s.staffWeeklyGoals)
      && (x in s.staffWeeklyGoals ==> r.staffWeeklyGoals[x] == s.staffWeeklyGoals[x])
    ensures r.customStaffList == s.customStaffList
    ensures r.tresholdHours == s.tresholdHours && r.tresholdRevenue == s.tresholdRevenue
  {
    s.(staffWeeklyGoals := s.staffWeeklyGoals[staff := parsed.GetOr(0)])
  }

  /** The revenue goal's input: the typed number, or 0 when it does not parse. */
  function ChangeRevenueGoal(s: Thresholds, parsed: Option<int>): (r: Thresholds)
    ensures r.tresholdRevenue == parsed.GetOr(0)
    ensures r.customStaffList == s.customStaffList && r.staffWeeklyGoals == s.staffWeeklyGoals
    ensures r.tresholdHours == s.tresholdHours
  {
    s.(tresholdRevenue := parsed.GetOr(0))
  }

  /** The sum of a dictionary's values, in any order (the order of `Object.entries` does
      not matter to a sum). */
  ghost function SumValues(m: map<string, int>): int
    decreases |m|
  {
    if m == map[] then 0
    else
      var k :| k in m;
      m[k] + SumValues(m - {k})
  }

  /** The sum does not depend on which key is taken first. */
  lemma {:induction false} SumValuesRemove(m: map<string, int>, k: string)
    requires k in m
    ensures SumValues(m) == m[k] + SumValues(m - {k})
    decreases |m|
  {
    var k' :| k' in m && SumValues(m) == m[k'] + SumValues(m - {k'});
    if k' != k {
      assert |m - {k'}| < |m| by { assert m.Keys - {k'} < m.Keys; }
      SumValuesRemove(m - {k'}, k);
      assert |m - {k}| < |m| by { assert m.Keys - {k} < m.Keys; }
      SumValuesRemove(m - {k}, k');
      assert (m - {k'}) - {k} == (m - {k}) - {k'};
    }
  }

  /** The goals of the listed staff: `Object.entries(goals).filter(([s]) => list.includes(s))`. */
  function ListedGoals(goals: map<string, int>, list: seq<string>): (r: map<string, int>)
    ensures forall x :: x in r <==> x in goals && x in list
  {
    map x | x in goals && x in list :: goals[x]
  }

  /** `saveSettings`: the hours goal becomes the sum of the goals of the listed staff; the
      other fields are sent unchanged. */
  ghost function SaveSettings(s: Thresholds): (r: Thresholds)
    ensures r.customStaffList == s.customStaffList && r.staffWeeklyGoals == s.staffWeeklyGoals
    ensures r.tresholdRevenue == s.tresholdRevenue
  {
    s.(tresholdHours := SumValues(ListedGoals(s.staffWeeklyGoals, s.customStaffList)))
  }

  /** The goal of each listed staff member, 0 for one without a goal, added up along the list. */
  function GoalsAlong(list: seq<string>, goals: map<string, int>): int {
    if list == [] then 0
    else
      var last := list[|list| - 1];
      GoalsAlong(list[..|list| - 1], goals) + (if last in goals then goals[last] else 0)
  }

  /** For a duplicate-free staff list, the saved hours goal is the listed staff's goals added
      up one by one. */
  lemma {:induction false} SavedHoursAddsListedGoals(s: Thresholds)
    requires Distinct(s.customStaffList)
    ensures SaveSettings(s).tresholdHours == GoalsAlong(s.customStaffList, s.staffWeeklyGoals)
  {
    ListedGoalsAlong(s.customStaffList, s.staffWeeklyGoals);
  }

  lemma {:induction false} ListedGoalsAlong(list: seq<string>, goals: map<string, int>)
    requires Distinct(list)
    ensures SumValues(ListedGoals(goals, list)) == GoalsAlong(list, goals)
  {
    if list == [] {
      assert ListedGoals(goals, list) == map[];
    } else {
      var init, last := list[..|list| - 1], list[|list| - 1];
      assert list == init + [last];
      assert Distinct(init) && last !in init;
      ListedGoalsAlong(init, goals);
      ListedGoalsSnoc(goals, init, last);
      if last in goals {
        SumValuesAdd(ListedGoals(goals, init), last, goals[last]);
      }
    }
  }

  lemma ListedGoalsSnoc(goals: map<string, int>, init: seq<string>, last: string)
    ensures ListedGoals(goals, init + [last])
         == if last in goals then ListedGoals(goals, init)[last := goals[last]] else ListedGoals(goals, init)
  {
  }

  /** Adding a new key adds its value to the sum. */
  lemma SumValuesAdd(m: map<string, int>, k: string, v: int)
    requires k !in m
    ensures SumValues(m[k := v]) == v + SumValues(m)
  {
    SumValuesRemove(m[k := v], k);
    assert m[k := v] - {k} == m;
  }

  /** The goals of staff who are not listed do not affect the saved hours goal. */
  lemma UnlistedGoalIgnored(s: Thresholds, staff: string, goal: int)
    requires staff !in s.customStaffList
    ensures SaveSettings(s.(staffWeeklyGoals := s.staffWeeklyGoals[staff := goal])).tresholdHours
         == SaveSettings(s).tresholdHours
  {
    var s' := s.(staffWeeklyGoals := s.staffWeeklyGoals[staff := goal]);
    assert ListedGoals(s'.staffWeeklyGoals, s'.customStaffList) == ListedGoals(s.staffWeeklyGoals, s.customStaffList);
  }

  // ------------------------------------------------------------------ prebills

  /** The prebills document: staff -> month abbreviation -> "Yes" / "No". */
  type Prebills = map<string, map<string, string>>

  /** `prebills[staff]?.[month]`. */
  function Cell(p: Prebills, staff: string, month: string): Option<string> {
    if staff in p && month in p[staff] then Some(p[staff][month]) else None
  }

  /** `handlePrebillChange`: sets one cell; every other cell, and every staff entry, stays. */
  function PrebillChange(p: Prebills, staff: string, month: string, value: string): (r: Prebills)
    ensures Cell(r, staff, month) == Some(value)
    ensures forall st, m :: st != staff || m != month ==> Cell(r, st, m) == Cell(p, st, m)
    ensures r.Keys == p.Keys + {staff}
  {
    var row := if staff in p then p[staff] else map[];
    p[staff := row[month := value]]
  }

  /** The select's value: the stored answer, or "Yes" when the cell is missing or empty. */
  function PrebillDisplay(p: Prebills, staff: string, month: string): (r: string)
    ensures Cell(p, staff, month).Some? && Cell(p, staff, month).value != "" ==> r == Cell(p, staff, month).value
    ensures Cell(p, staff, month).None? || Cell(p, staff, month).value == "" ==> r == "Yes"
  {
    var c := Cell(p, staff, month);
    if c.Some? && c.value != "" then c.value else "Yes"
  }

  /** After a change, the changed cell shows the chosen answer and every other cell shows
      what it showed before. */
  lemma DisplayAfterChange(p: Prebills, staff: string, month: string, value: string, st: string, m: string)
    requires value != ""
    ensures PrebillDisplay(PrebillChange(p, staff, month, value), staff, month) == value
    ensures st != staff || m != month ==>
      PrebillDisplay(PrebillChange(p, staff, month, value), st, m) == PrebillDisplay(p, st, m)
  {
  }

  // ------------------------------------------------------------------ staff choices

  /** The staff offered for selection: `[...new Set(names)].filter(Boolean).sort()` — each
      non-empty abbreviation once, in code-point order. JavaScript's `sort()` compares UTF-16
      code units, which agrees with code-point order only for names within the Basic
      Multilingual Plane (staff abbreviations are ASCII). */
  function UniqueStaff(names: seq<Option<string>>): (r: seq<string>)
    ensures StrictlySorted(r, StrLess) && Distinct(r)
    ensures forall x :: x in r <==> Some(x) in names && x != ""
  {
    StrLessIsStrictTotal();
    SortUnique(Filter(Somes(names), x => x != ""), StrLess)
  }
}
