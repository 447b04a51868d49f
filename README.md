# RLG Dashboard — a Dafny model of its core

The RLG Dashboard is a business-intelligence dashboard for a law firm. It has two front ends
that read the same three CSV tables:

- a Streamlit app (`streamlit_app.py`, with the tabs `Tabs/RLGDashboard.py`, `Tabs/RevShare.py`
  and `Tabs/Settings.py`, plus `data_loader.py` and `auth.py`);
- a React app (the pages `RLGDashboard.jsx`, `RevShare.jsx` and `Settings.jsx`).

The tables are:

- revenue-share rows: `RevShareDate`, `Staff`, the month's production revenue, origination fees, the
  three revenue tiers and the revenue-share total;
- billable-hours rows: `BillableHoursDate`, `StaffAbbreviation`, `BillableHoursAmount`;
- matters: `MatterCreationDate` and up to three originating staff slots.

A settings document (`settings.json`) holds:

- the team's annual hours goal and revenue goal (the keys are spelled `treshold_…`);
- the roster of staff shown on the dashboard (`custom_staff_list`);
- each staff member's weekly hours goal.

A users file maps e-mail addresses to a password and the tabs that user may open. A prebills file holds a
Yes/No matrix per staff member and month.

This project models the core's computations on those values:

- the date, roster and staff filters;
- the group-by sums and counts behind every KPI and chart series;
- the year-to-date cumulative revenue and its goal line;
- the "last six weeks" and "latest four weeks" windows;
- the unpivoting of matter staff slots;
- the settings defaults, edits and saves of both front ends;
- the prebills back-fill and save;
- sign-in, sign-out and the tab permissions;
- the date-picker bounds.

Each operation is stated as Dafny functions, or as methods where the source mutates or loops. Where the
two front ends compute the same figure, lemmas relate them.

Modules:

| file | module | models |
|---|---|---|
| `wrappers.dfy` | `Wrappers` | `Option`, `Result` |
| `calendar.dfy` | `Calendar` | dates, day numbers, weekdays, week and month keys |
| `text.dfy` | `Text` | string order, `strip()`, `lower()` |
| `sorting.dfy` | `Sorting` | `sorted`, `unique`, `[-n:]` |
| `aggregate.dfy` | `Aggregate` | filters, NaN-skipping sums, group-by sums and counts, and their roll-ups |
| `data_loader.dfy` | `DataLoader` | `data_loader.py` |
| `session.dfy` | `Session` | `st.session_state` as a mutable key/value store |
| `settings_doc.dfy` | `SettingsDoc` | the settings document |
| `settings_py.dfy` | `SettingsPy` | `Tabs/Settings.py` |
| `settings_js.dfy` | `SettingsJs` | `Settings.jsx` |
| `rlg_dashboard_py.dfy` | `RlgDashboardPy` | `Tabs/RLGDashboard.py` |
| `rlg_dashboard_js.dfy` | `RlgDashboardJs` | `RLGDashboard.jsx` |
| `revshare_py.dfy` | `RevSharePy` | `Tabs/RevShare.py` |
| `revshare_js.dfy` | `RevShareJs` | `RevShare.jsx` |
| `auth.dfy` | `Auth` | `auth.py` |
| `streamlit_app.dfy` | `StreamlitApp` | `streamlit_app.py` |

Conventions of the model:

- Amounts are exact `real`s; the program's floats are not modelled (see "## Left out"). A value that
  pandas would read as NaN is `None`.
- `sum()` skips missing values.
- JavaScript's `x || 0` turns a missing value into 0.
- Dates are proleptic Gregorian days. Their day number is Python's `toordinal()`.
- A week key is the day number of its Monday.
- A month key is a (year, month) pair, ordered chronologically, like the `YYYY-MM` text the source compares.
- A matter creation date that did not parse (`NaT`, or JavaScript's `Invalid Date`) is `None` and fails every comparison.
  Revenue and hours rows always carry a date (see "## Left out").

## Model

| member | source | states |
|---|---|---|
| Calendar.WeekKey | data_loader.py:27-29 | the week key is a Monday, on or at most six days before the date |
| Calendar.JsWeekKey | react-dashboard/frontend/src/pages/RLGDashboard.jsx:95 | the JavaScript key (`getDate() - getDay() + 1`) is a Monday; it is the week's own Monday for Monday to Saturday and the following Monday for a Sunday |
| Calendar.JsDay | react-dashboard/frontend/src/pages/RLGDashboard.jsx:95 | `getDay()` is in 0..6, Sunday is 0, and it is pandas' `dayofweek` shifted by one |
| Calendar.MonthStart | data_loader.py:31 | the first day of the date's month: the same month, day 1, not after the date |
| Calendar.YearStart | Tabs/RLGDashboard.py:77 | January 1st of the year, with the smallest day number of that year |
| Calendar.PrevMonth | Tabs/RLGDashboard.py:140 | one month back: January of a year goes to December of the year before; always the month just before in chronological order |
| Calendar.WeekKeyExample | data_loader.py:27-29 | 2025-03-12 is a Wednesday whose week starts on Monday 2025-03-10; for Sunday 2025-03-16 the Python key is 2025-03-10 and the JavaScript key is 2025-03-17 |
| Text.LowerChar | auth.py:14 | on one ASCII character: a capital becomes the small letter at the same place in the alphabet; any other character is kept |
| Text.Lower | auth.py:14 | `lower()` over ASCII: character by character `LowerChar`, so the length is kept |
| Text.StripLeft | auth.py:14 | the left half of `strip()`: a suffix of the input, only whitespace removed, none left at its start |
| Text.StripRight | auth.py:14 | the right half of `strip()`: a prefix of the input, only whitespace removed, none left at its end |
| Text.Strip | auth.py:14 | `strip()` is a window of the input with only whitespace outside it and none at its own ends |
| Text.StripUnique | auth.py:14 | any window of the input with only whitespace outside it and none at its own ends is `strip()`, so that characterisation determines the result |
| Sorting.SortUnique | Tabs/Settings.py:13 | `sorted(...unique())`: strictly ascending, duplicate-free, with exactly the input's members |
| Sorting.TakeLast | Tabs/RLGDashboard.py:305 | `[-n:]`: the last `min(n, len)` elements |
| DataLoader.DeriveHours | data_loader.py:26-29 | `Month` is the row's month and `Week` the Monday on or before its date |
| DataLoader.DeriveRevenue | data_loader.py:31-36 | `MonthDate` is day 1 of the row's month, naming the same month as `Month`; `WeekDate` and `Week` are the same Monday on or before the date |
| DataLoader.DeriveMatter | data_loader.py:23-41 | a matter whose date did not parse is kept and has no week; otherwise its week is the Monday on or before its date |
| DataLoader.MtimeKey | data_loader.py:10-15 | one modification time per CSV file, in the fixed file order |
| DataLoader.LoadData | data_loader.py:7-43 | row i of each loaded table is the derivation of input row i (`DeriveRevenue`, `DeriveHours`, `DeriveMatter`), and the cache key is `MtimeKey` of the three files |
| SettingsPy.UniqueStaffList | Tabs/Settings.py:13 | the staff that occur, without nulls, each once, ascending |
| SettingsPy.DefaultsAreNineStaffAtTwenty | Tabs/Settings.py:16-26 | the default goals name nine different staff at 20 hours each, the same nine as the default roster |
| SettingsPy.LoadThresholdSettings | Tabs/Settings.py:28-37 | the file's document when it exists, otherwise 910 hours, 2,000,000 revenue, the nine default staff and their goals |
| SettingsPy.Fill | Tabs/Settings.py:46-47 | sets a key only when it is absent; every other key is kept |
| SettingsPy.SessionDefaults | Tabs/Settings.py:44-53 | existing keys are untouched; each missing settings key gets the document's value or its default; no other key is added |
| SettingsPy.SessionDefaultsIdempotent | Tabs/Settings.py:44-53 | filling the defaults twice is the same as filling them once |
| SettingsPy.EnsureSessionDefaults | Tabs/Settings.py:44-53 | the session after `_ensure_session_defaults` is `SessionDefaults` of the old session and the loaded document |
| SettingsPy.SessionThresholds | Tabs/Settings.py:61-64 | the four settings are read exactly when all four keys hold values of the right kind |
| SettingsPy.DefaultsCompleteSession | Tabs/Settings.py:44-64 | starting from a session without settings, the tab can always read all four |
| SettingsPy.InitialGoal | Tabs/Settings.py:103 | the current goal, else the default goal, else 20 |
| SettingsPy.EditGoals | Tabs/Settings.py:93-108 | succeeds exactly when every selected staff member's starting value is within 0..60, which `number_input` demands; the result holds exactly the selected staff, each with the typed value or else the starting value; a failure names an offending staff member |
| SettingsPy.SavedDocument | Tabs/Settings.py:111-120 | the typed thresholds are kept; with a selection, the selection and its goals are saved; with none, the current list and goals are saved |
| SettingsPy.SavedGoalsMatchSavedStaff | Tabs/Settings.py:112-119 | with a selection, the saved goals name exactly the saved staff |
| SettingsPy.WriteDocument | Tabs/Settings.py:124-128 | afterwards the session reads back exactly the document; other keys are untouched |
| SettingsPy.SaveSettings | Tabs/Settings.py:111-130 | returns the saved document and writes it to the session |
| SettingsPy.PerLawyerRevenue | Tabs/Settings.py:137 | revenue goal divided evenly over the selected staff, 0 for nobody |
| SettingsPy.PreviewFor | Tabs/Settings.py:133-147 | no preview exactly when nobody is selected; otherwise hours/12, hours/52, the per-lawyer revenue and one goal per selected staff member in order |
| SettingsPy.PreviewShowsSavedGoals | Tabs/Settings.py:111-147 | the preview's goals are those a save of the same edits writes |
| SettingsJs.Without | react-dashboard/frontend/src/pages/Settings.jsx:40 | `filter(s => s !== staff)` keeps exactly the other names |
| SettingsJs.WithoutListed | react-dashboard/frontend/src/pages/Settings.jsx:40 | removing a name listed once leaves the others in place and order |
| SettingsJs.ToggleStaff | react-dashboard/frontend/src/pages/Settings.jsx:38-45 | the staff member's membership flips (appended at the end when added), nobody else's changes, a missing or zero goal becomes 20, other goals and the thresholds are kept |
| SettingsJs.ToggleTwice | react-dashboard/frontend/src/pages/Settings.jsx:38-45 | ticking then unticking restores the list, and the goal given on the way stays |
| SettingsJs.ToggleKeepsDistinct | react-dashboard/frontend/src/pages/Settings.jsx:38-45 | a duplicate-free roster stays duplicate-free |
| SettingsJs.ChangeGoal | react-dashboard/frontend/src/pages/Settings.jsx:47-49 | the goal becomes the parsed number or 0; nothing else changes |
| SettingsJs.ChangeRevenueGoal | react-dashboard/frontend/src/pages/Settings.jsx:110 | the revenue goal becomes the parsed number or 0; nothing else changes |
| SettingsJs.ListedGoals | react-dashboard/frontend/src/pages/Settings.jsx:54-55 | keeps exactly the goals of listed staff |
| SettingsJs.SaveSettings | react-dashboard/frontend/src/pages/Settings.jsx:51-59 | only the hours goal changes |
| SettingsJs.SavedHoursAddsListedGoals | react-dashboard/frontend/src/pages/Settings.jsx:54-57 | for a duplicate-free roster, the saved hours goal is the sum of the listed staff's goals, with 0 for a listed name without a goal |
| SettingsJs.UnlistedGoalIgnored | react-dashboard/frontend/src/pages/Settings.jsx:54-57 | the goal of a staff member off the roster does not affect the saved hours goal |
| SettingsJs.PrebillChange | react-dashboard/frontend/src/pages/Settings.jsx:69-71 | sets one cell; every other cell is unchanged and the staff entries gain at most that staff member |
| SettingsJs.PrebillDisplay | react-dashboard/frontend/src/pages/Settings.jsx:130 | the stored answer, or "Yes" when the cell is missing or empty |
| SettingsJs.DisplayAfterChange | react-dashboard/frontend/src/pages/Settings.jsx:69-71 | after a change, the changed cell shows the new answer and every other cell shows what it showed before |
| SettingsJs.UniqueStaff | react-dashboard/frontend/src/pages/Settings.jsx:27 | `[...new Set(names)].filter(Boolean).sort()`: ascending, duplicate-free, exactly the non-empty names that occur |
| RlgDashboardPy.FilterRevenue | Tabs/RLGDashboard.py:72 | exactly the rows dated in the inclusive range whose staff is on the roster, each as often as it occurs |
| RlgDashboardPy.FilterHours | Tabs/RLGDashboard.py:73 | exactly the hours rows dated in the range whose staff is on the roster, each as often as it occurs |
| RlgDashboardPy.FilterMatters | Tabs/RLGDashboard.py:74 | exactly the matters created in the range; an unparsed date drops the row |
| RlgDashboardPy.MattersYtdIsFilteredMatters | Tabs/RLGDashboard.py:77-80 | the year-to-date filter removes nothing beyond the range filter |
| RlgDashboardPy.RowTotal | Tabs/RLGDashboard.py:101 | `Total` is the sum of the two parts, missing when either is |
| RlgDashboardPy.Totals | Tabs/RLGDashboard.py:200 | one amount per row: its `Total`, a missing one counting 0.0, so that sums agree with `sum()` skipping NaN |
| RlgDashboardPy.MonthStaffKeys | Tabs/RLGDashboard.py:106-108 | each row's (first day of its month, staff) key |
| RlgDashboardPy.TeamRevenueIsRollUp | Tabs/RLGDashboard.py:106-113 | summing the per-staff monthly totals of a month gives the month's total taken directly; both are the sum of that month's row totals (in exact arithmetic) |
| RlgDashboardPy.TotalRevenueIsSumOfMonths | Tabs/RLGDashboard.py:200 | total revenue is the sum of the monthly team totals over any duplicate-free list of months covering the rows (in exact arithmetic) |
| RlgDashboardPy.WeekStaffKeys | Tabs/RLGDashboard.py:118 | each hours row's (week, staff) key |
| RlgDashboardPy.MonthStaffHoursKeys | Tabs/RLGDashboard.py:121 | each hours row's (month, staff) key |
| RlgDashboardPy.TeamHoursAreRollUps | Tabs/RLGDashboard.py:118-127 | the weekly (monthly) team hours are the roll-ups of the per-staff weekly (monthly) hours |
| RlgDashboardPy.StaffThresholds | Tabs/RLGDashboard.py:63-69 | per-lawyer revenue times roster size is the revenue goal; the monthly hours goal is 1/12 of the annual goal and the weekly goal 1/4 of the monthly one |
| RlgDashboardPy.LastSelectedMonth | Tabs/RLGDashboard.py:103 | the first day of the latest month among the filtered rows; it is one of their months and no row is later |
| RlgDashboardPy.CurrentAndPriorMonth | Tabs/RLGDashboard.py:139-140 | the current month is the last selected month and the prior month the calendar month just before it |
| RlgDashboardPy.MonthHours | Tabs/RLGDashboard.py:190-196 | a month's team hours, 0 when the month has none |
| RlgDashboardPy.MonthFirst | Tabs/RLGDashboard.py:148-150 | the first day of each of the twelve months of the year |
| RlgDashboardPy.YtdTotals | Tabs/RLGDashboard.py:145-168 | twelve values, one per month of the end date's year, each the sum of that month's row totals |
| RlgDashboardPy.YtdTotalsZeroFill | Tabs/RLGDashboard.py:165-168 | a month without rows gets 0 |
| RlgDashboardPy.LastPositive | Tabs/RLGDashboard.py:174 | the last month with positive revenue, missing when there is none |
| RlgDashboardPy.YtdCumulative | Tabs/RLGDashboard.py:171-177 | the running sum up to the last positive month, 0 after it; when no month is positive, the plain running sum |
| RlgDashboardPy.YtdPeakIsYearTotal | Tabs/RLGDashboard.py:171-177 | with no negative month, the running sum up to the last positive month equals the year's total |
| RlgDashboardPy.GoalLine | Tabs/RLGDashboard.py:187 | twelve points from 0 to the goal in eleven equal steps |
| RlgDashboardPy.RecentWeeklyHours | Tabs/RLGDashboard.py:306 | exactly the (week, staff) pairs of the hours rows whose week is a recent one, each holding that pair's summed hours |
| RlgDashboardPy.RecentWeeksAreLatest | Tabs/RLGDashboard.py:304-305 | at most six weeks, ascending, present and not after the end date; any week left out is earlier than all of them, and weeks are left out only when six are kept |
| RlgDashboardPy.HoursWeeksNotAfterEnd | Tabs/RLGDashboard.py:296-306 | every week of the filtered hours is on or before the end date |
| RlgDashboardPy.MeltColumn | Tabs/RLGDashboard.py:502-507 | one melted column: (date, slot) of every matter, in order |
| RlgDashboardPy.YtdMatterCount | Tabs/RLGDashboard.py:502-514 | a staff member's new-matter count is the number of (dated matter, slot) pairs holding them; missing slots and staff off the roster never count |
| RlgDashboardPy.DropNaOnRosterFrom | Tabs/RLGDashboard.py:510-511 | every kept row comes from a row with a date and a roster staff member |
| RlgDashboardPy.AssignmentWeeks | Tabs/RLGDashboard.py:537-549 | every week of an assignment is the week of a dated matter |
| RlgDashboardPy.WeeklyMatterCountsAddUpToYtd | Tabs/RLGDashboard.py:514-549 | a staff member's weekly counts, over any duplicate-free list of weeks covering the matters, add up to their year-to-date count |
| RlgDashboardPy.FillRow | Tabs/RLGDashboard.py:608-611 | one staff row gains every missing month as "No"; present cells are kept |
| RlgDashboardPy.BackFill | Tabs/RLGDashboard.py:605-611 | every roster staff member gets a row holding every month, with present cells kept and missing ones "No"; rows of staff off the roster are untouched |
| RlgDashboardPy.SavedRow | Tabs/RLGDashboard.py:630-639 | a row's select boxes return exactly the twelve months, each the pick or else the stored value; it fails when a stored value is neither "Yes" nor "No"; with Yes/No picks, as a select box gives, every saved cell is Yes or No |
| RlgDashboardPy.BackFilledCanBeSaved | Tabs/RLGDashboard.py:605-639 | the back-filled matrix covers the roster; when the stored cells are "Yes" or "No", every row can be saved |
| RlgDashboardPy.SavedMatrix | Tabs/RLGDashboard.py:620-644 | fails exactly when a roster cell holds something other than "Yes" or "No"; otherwise it writes exactly the roster's rows, each with exactly the twelve months |
| RlgDashboardJs.FilterRevenue | react-dashboard/frontend/src/pages/RLGDashboard.jsx:22-25 | exactly the rows whose date lies in the inclusive range, each as often as it occurs, whatever their staff |
| RlgDashboardJs.FilterHours | react-dashboard/frontend/src/pages/RLGDashboard.jsx:27-30 | the same for hours rows |
| RlgDashboardJs.RowRevenueAgainstPython | react-dashboard/frontend/src/pages/RLGDashboard.jsx:33 | where both parts are present, the page's row revenue equals the Streamlit `Total`; where one part is missing the page counts the other, while the Streamlit total is missing |
| RlgDashboardJs.RevenueByMonth | react-dashboard/frontend/src/pages/RLGDashboard.jsx:58-62 | the month map is the group-by sum of revenue per month |
| RlgDashboardJs.RevenueByStaff | react-dashboard/frontend/src/pages/RLGDashboard.jsx:49-55 | the per-staff totals over the rows whose staff is truthy and on the roster |
| RlgDashboardJs.RevenueByStaffKeys | react-dashboard/frontend/src/pages/RLGDashboard.jsx:49-56 | a name is in the map exactly when it is non-empty, on the roster and has a row |
| RlgDashboardJs.HoursByMonth | react-dashboard/frontend/src/pages/RLGDashboard.jsx:35-39 | the month map is the group-by sum of hours (missing counting 0) per month, whatever the staff |
| RlgDashboardJs.CurrentAndPriorMonth | react-dashboard/frontend/src/pages/RLGDashboard.jsx:41-43 | the last sorted month key and the one before, each missing when there are too few; the current month follows every other key |
| RlgDashboardJs.MonthHoursKpis | react-dashboard/frontend/src/pages/RLGDashboard.jsx:45-46 | the hours of those two months, 0 when missing |
| RlgDashboardJs.PriorMonthSkipsEmptyMonths | react-dashboard/frontend/src/pages/RLGDashboard.jsx:41-46 | with hours only in January and March 2025, the prior month is January, unlike the Streamlit calendar month |
| RlgDashboardJs.MonthSeries | react-dashboard/frontend/src/pages/RLGDashboard.jsx:64-81 | the months that occur, ascending and each once, with their group totals |
| RlgDashboardJs.MonthSeriesTotal | react-dashboard/frontend/src/pages/RLGDashboard.jsx:76-81 | the series' totals add up to the sum of all amounts (in exact arithmetic) |
| RlgDashboardJs.MonthlyHoursData | react-dashboard/frontend/src/pages/RLGDashboard.jsx:76-81 | the months with hours, ascending, with their totals |
| RlgDashboardJs.RunningSums | react-dashboard/frontend/src/pages/RLGDashboard.jsx:64-74 | entry i is the sum of the first i+1 values |
| RlgDashboardJs.Accumulate | react-dashboard/frontend/src/pages/RLGDashboard.jsx:64-68 | the loop's `cumulative` values are the running sums |
| RlgDashboardJs.YtdRevenueData | react-dashboard/frontend/src/pages/RLGDashboard.jsx:64-74 | the months with revenue ascending, their revenue and running totals; the last running total is the total revenue |
| RlgDashboardJs.Last6Weeks | react-dashboard/frontend/src/pages/RLGDashboard.jsx:84-91 | six Mondays one week apart, ascending, the last being today's JavaScript week key |
| RlgDashboardJs.RecentHours | react-dashboard/frontend/src/pages/RLGDashboard.jsx:93-96 | exactly the rows whose JavaScript week key is one of the weeks |
| RlgDashboardJs.WeeklyIndividualHours | react-dashboard/frontend/src/pages/RLGDashboard.jsx:93-101 | the (week, staff) group-by sum of the hours of the rows in those weeks, whatever their staff |
| RlgDashboardJs.WeeklyIndividualData | react-dashboard/frontend/src/pages/RLGDashboard.jsx:103-109 | one entry per week in order, naming every roster staff member and nobody else, with their hours or 0 |
| RlgDashboardJs.WeeklyGridCells | react-dashboard/frontend/src/pages/RLGDashboard.jsx:93-109 | each cell is the staff member's total hours over that week's rows |
| RlgDashboardJs.MatterSlotHits | react-dashboard/frontend/src/pages/RLGDashboard.jsx:118-120 | every pair it yields carries the matter's week |
| RlgDashboardJs.CountSlots | react-dashboard/frontend/src/pages/RLGDashboard.jsx:118-126 | both counters grow by the matter's hits, one per hit |
| RlgDashboardJs.CountMatters | react-dashboard/frontend/src/pages/RLGDashboard.jsx:112-128 | the year-to-date and weekly counters are the counts of the hits of the matters in range |
| RlgDashboardJs.MatterSlotHitsCount | react-dashboard/frontend/src/pages/RLGDashboard.jsx:118-121 | a matter's hits hold a staff member as often as its slots do when they are truthy and on the roster, and never otherwise |
| RlgDashboardJs.YtdMattersAgainstPython | react-dashboard/frontend/src/pages/RLGDashboard.jsx:112-128 | the page's year-to-date count of a roster name equals the Streamlit count over the matters in range; other names are never counted |
| RlgDashboardJs.HitWeeks | react-dashboard/frontend/src/pages/RLGDashboard.jsx:131-132 | the weeks with at least one hit, ascending, each once |
| RlgDashboardJs.WeeklyMattersAddUpToYtd | react-dashboard/frontend/src/pages/RLGDashboard.jsx:121-124 | a staff member's weekly counts over the weeks with hits add up to their year-to-date count |
| RlgDashboardJs.LatestHitWeeks | react-dashboard/frontend/src/pages/RLGDashboard.jsx:131-133 | at most four weeks, ascending, all with hits; any week with hits that is left out is earlier than all of them |
| RlgDashboardJs.WeekCounts | react-dashboard/frontend/src/pages/RLGDashboard.jsx:124 | the staff with hits that week, each with their number of hits that week |
| RlgDashboardJs.WeeklyMattersData | react-dashboard/frontend/src/pages/RLGDashboard.jsx:131-137 | the latest weeks with hits, in order, each with its counts |
| RlgDashboardJs.ProcessedData | react-dashboard/frontend/src/pages/RLGDashboard.jsx:15-144 | `null` exactly when the revenue table, the hours table or the settings are missing; otherwise each figure as stated by the members above, including the weekly grid over the six weeks ending with today's |
| RevSharePy.SelectedRows | Tabs/RevShare.py:55-60 | exactly the rows dated in range whose staff is the selected one, in file order |
| RevSharePy.FilterRevShare | Tabs/RevShare.py:55-62 | the same rows as often as they occur, ascending by date |
| RevSharePy.ProductionRevenueShare | Tabs/RevShare.py:84 | Tier 1 + Tier 2 + Tier 3, missing when a tier is |
| RevSharePy.DesiredOrderFacts | Tabs/RevShare.py:86-105 | the display columns are distinct and none of them is an `Unnamed` column |
| RevSharePy.PresentColumns | Tabs/RevShare.py:61-81 | the CSV's columns without the `Unnamed` ones, renamed |
| RevSharePy.RevShareColumns | Tabs/RevShare.py:84-108 | fails exactly when a tier column is missing; otherwise the present columns of the desired order, in that order, including "Production Revenue Share" |
| RevSharePy.FormatCell | Tabs/RevShare.py:15 | a number becomes money text and a missing value "" (the formatter is applied to numeric columns only) |
| RevSharePy.FormatColumn | Tabs/RevShare.py:15 | formats every cell, keeping the length |
| RevSharePy.DataFrame.FormatAsMoney | Tabs/RevShare.py:12-16 | each listed column the frame has is formatted; all other columns and the column order are unchanged |
| RevSharePy.FilterEntries | Tabs/RevShare.py:143-148 | exactly the entries dated in range for the selected staff |
| RevSharePy.TypeFrame | Tabs/RevShare.py:162-164 | one summary row per selected entry, labelled with the type |
| RevSharePy.SummaryFrames | Tabs/RevShare.py:137-164 | keeps exactly the non-empty frames, in type order; their concatenation is that of all three frames |
| RevSharePy.AllFramesConcat | Tabs/RevShare.py:167-168 | the concatenation holds the FONE, then the FMON, then the hourly rows |
| RevSharePy.PayoutByMonth | Tabs/RevShare.py:169-181 | one row per (month, type) with a payout, holding its payout sum, ascending by month; within a month the model orders the types (see "## Left out") |
| RevSharePy.PayoutByMonthConserves | Tabs/RevShare.py:169-177 | the grouped payouts add up to the payouts of the combined rows (in exact arithmetic) |
| RevSharePy.KpiValues | Tabs/RevShare.py:167-187 | no KPIs without frames; otherwise the sums of production revenue, revenue share and hours over rows with a payout |
| RevSharePy.KpisShownIffEntries | Tabs/RevShare.py:162-187 | the KPIs stay empty exactly when no entry type has a selected entry |
| RevSharePy.HoursNeedAPayout | Tabs/RevShare.py:169-187 | an entry with hours but no payout adds nothing to the hours KPI |
| RevShareJs.FilterRows | react-dashboard/frontend/src/pages/RevShare.jsx:38-45 | a missing list gives nothing; otherwise exactly the rows whose date parses and is in range and whose staff is the selected one |
| RevShareJs.FilterTimeEntries | react-dashboard/frontend/src/pages/RevShare.jsx:38-48 | the same for time entries |
| RevShareJs.SameRowsAsStreamlit | react-dashboard/frontend/src/pages/RevShare.jsx:45 | the page keeps the same multiset of rows as the Streamlit tab |
| RevShareJs.TotalsAgreeWithStreamlit | react-dashboard/frontend/src/pages/RevShare.jsx:50-51 | the production and revenue-share totals equal the Streamlit KPIs over the same selection (in exact arithmetic) |
| RevShareJs.AddPayout | react-dashboard/frontend/src/pages/RevShare.jsx:59 | only the entry's own type grows, by the payout |
| RevShareJs.ProcessTE | react-dashboard/frontend/src/pages/RevShare.jsx:55-61 | records every entry of the list in order |
| RevShareJs.RecordAllFacts | react-dashboard/frontend/src/pages/RevShare.jsx:55-61 | each entry's payout is added under its month and own type only, and exactly the months the entries fall in are created |
| RevShareJs.PayoutTableFacts | react-dashboard/frontend/src/pages/RevShare.jsx:54-65 | each month holds, per type, the sum of that type's payouts in the month |
| RevShareJs.ChartDataContents | react-dashboard/frontend/src/pages/RevShare.jsx:67 | one element per month with entries, holding each type's payout sum, with months never descending |
| RevShareJs.ChartDataConserves | react-dashboard/frontend/src/pages/RevShare.jsx:54-67 | for each type, the chart's bars add up to that type's filtered payouts (in exact arithmetic) |
| RevShareJs.FilteredData | react-dashboard/frontend/src/pages/RevShare.jsx:32-70 | `null` exactly when there is no data or the selected staff is empty; otherwise the filtered lists, the totals (hours over all three types) and the chart data |
| Auth.NormalizeEmail | auth.py:13-14 | no surrounding whitespace and no capital letters remain |
| Auth.NormalizeEmailIsLoweredWindow | auth.py:13-14 | the normal form is the lower-cased window of the input left after cutting off only its surrounding whitespace |
| Auth.NormalizeEmailIdempotent | auth.py:13-14 | normalising twice is normalising once |
| Auth.NormalizeEmailIgnoresCase | auth.py:13-14 | lower-casing the input first makes no difference |
| Auth.NormalizeEmailIgnoresSpaces | auth.py:13-14 | any whitespace before or after the address makes no difference |
| Auth.LoweredUsers | auth.py:35 | a key is there exactly when some stored address lowers to it, holding the record of the last such address |
| Auth.Authenticate | auth.py:33-47 | signs in exactly when the normalised address matches a stored one, ignoring its case, and the password matches, with the record of the last match; otherwise "Incorrect password." or "Email not found." |
| Auth.AuthenticateIgnoresCaseAndSpaces | auth.py:34-37 | typing the address in lower case, or with any whitespace before or after it, gives the same outcome |
| Auth.SignedIn | auth.py:40-42 | `authenticated`, `username` (the address as typed) and `allowed_tabs` set; all other keys kept |
| Auth.Login | auth.py:16-47 | nothing happens before submission; otherwise the session is signed in exactly when the credentials are accepted, and the error is returned otherwise |
| Auth.SignedOut | auth.py:54-55 | the three sign-in keys are removed; all other keys kept |
| Auth.SignOutUndoesSignIn | auth.py:40-55 | signing out after signing in gives back the session without the sign-in keys |
| Auth.Logout | auth.py:51-56 | a click removes the three keys one by one; no click changes nothing |
| StreamlitApp.WithSettings | streamlit_app.py:56-64 | the four settings keys set from the document or their defaults; other keys kept |
| StreamlitApp.InitSettings | streamlit_app.py:50-64 | the session after the script's initialisation |
| StreamlitApp.InitialSettingsComplete | streamlit_app.py:50-64 | afterwards all four settings are readable, and when a key was missing they are the document's values or the defaults |
| StreamlitApp.InitialSettingsStable | streamlit_app.py:50-55 | a rerun never reloads the document |
| StreamlitApp.SettingsTabAddsNothing | streamlit_app.py:50-64 | once the script has initialised, the Settings tab's own filling changes nothing |
| StreamlitApp.InitialSettingsOverwrites | streamlit_app.py:50-64 | unlike the Settings tab, the script overwrites a setting already set when another one is missing |
| StreamlitApp.SignInOpensSignOutCloses | streamlit_app.py:68-72 | after a successful login the dashboard shows, for the typed address with the record's tabs; after logout it does not |
| StreamlitApp.Latest | streamlit_app.py:106 | `max`: an element no smaller than any other |
| StreamlitApp.LastUpdate | streamlit_app.py:101-124 | none for an empty key (shown as "Unknown"), else the latest modification time |
| StreamlitApp.LastUpdateOfLoadedFiles | streamlit_app.py:77-106 | for the key `load_data` returns, the time shown is the latest of the three files' times |
| StreamlitApp.VisibleTabs | streamlit_app.py:154-161 | a display name is visible exactly when its option's key is allowed; names appear in the options' order |
| StreamlitApp.PageTabs | streamlit_app.py:161-166 | the page stops exactly when no option's key is allowed |
| StreamlitApp.KeyOfLabel | streamlit_app.py:229 | the key of the first entry whose display name is the picked one, as `next(...)` returns |
| StreamlitApp.SelectedTabIsAllowed | streamlit_app.py:226-229 | the key of any visible tab the user can pick is an allowed key |
| StreamlitApp.Bounds | streamlit_app.py:188-209 | `max_date` is the day after the latest record; `min_date` is the earliest record but not before 2025-01-01; the default range starts on the later of January 1 and `min_date` and ends on the earlier of today and `max_date` |
| StreamlitApp.StaleDataPutsDefaultStartPastMaxDate | streamlit_app.py:200-217 | as written: when every record is older than December 31 of last year, the default start lies after `max_date` and after the default end |
| StreamlitApp.StaleDataExample | streamlit_app.py:200-217 | as written: all records on 2025-03-10, viewed on 2026-10-15 |
| StreamlitApp.ClampedBounds | streamlit_app.py:207-217 | corrected: same bounds, and the default range lies within them and is ordered whenever `min_date <= max_date`; equals `Bounds` whenever that is already ordered |

## Left out

- Reading and writing files is outside the model: the CSV tables, `settings.json`, `users.json`,
  the prebills file and the file modification times. Their contents are parameters. The HTTP API of
  the React app (`services/api.js`, `backend/app.py`) is not part of this model.
- Floating-point rounding is not modelled: amounts are exact `real`s, while pandas and JavaScript add
  IEEE doubles. The sum equalities below therefore hold exactly in the model and only up to rounding in
  the program: `RlgDashboardPy.TeamRevenueIsRollUp`, `RlgDashboardPy.TotalRevenueIsSumOfMonths`,
  `RlgDashboardJs.MonthSeriesTotal`, `RevSharePy.PayoutByMonthConserves`,
  `RevShareJs.TotalsAgreeWithStreamlit` and `RevShareJs.ChartDataConserves`.
- RlgDashboardPy.LastPositive: the test `ytd_revenue["Total"] > 0` (`Tabs/RLGDashboard.py:174`) is exact
  in the model; in the program a month whose amounts cancel (0.1 + 0.2 - 0.3) can sum to a tiny positive
  double and count as positive.
- A corrupt or empty prebills file is not modelled. The Streamlit tab starts from an empty matrix in
  that case; the model takes the parsed matrix as a parameter.
- Rendering is not modelled: charts, layout, the digits of formatted money and numbers, and month labels
  such as `"Jan 2025"`. Month labels are modelled as month keys in chronological order, which is the
  order both front ends sort them into. On the React revenue-share page this assumes that the browser's
  `new Date("Jan 2025")` parses such a label (`RevShare.jsx:57`, `RevShare.jsx:67`); an engine that does
  not parse it makes the comparator return NaN and leaves the months in insertion order.
- The chart-only frames of the Streamlit dashboard are not modelled: `prior_months_team_hours` and the
  categorical month axis (`Tabs/RLGDashboard.py:214`, `Tabs/RLGDashboard.py:418-430`).
- Time zones and times of day are not modelled (`ensure_tz` in `streamlit_app.py:168-185`, the local
  time zone, `toISOString` in UTC). Every timestamp is taken at day resolution in one time zone.
- The reload button and its spinner (`streamlit_app.py:134-151`) are not modelled. They touch only the
  cache and the clock.
- The React app's routing, header, sidebar and auth context are not part of this model.
- The fetch effect that picks the first roster member as the initial staff (`RevShare.jsx:19-21`) is
  not modelled; `FilteredData` takes the selected staff member as a parameter.
- `OldPlots.py` and `ExportSQLPython.py` are not part of this model.
- Text.Strip: only ASCII whitespace is removed. Python's `strip()` also removes Unicode whitespace
  such as U+00A0 and U+2003.
- Text.Lower: only ASCII capitals are lowered, and every other character is kept. Python's `lower()`
  also lowers non-ASCII capitals such as 'Ä', and turns 'İ' into two code points, so it does not
  always keep the length.
- Auth.NormalizeEmail: inherits both ASCII limits from `Text.Strip` and `Text.Lower`.
- RevSharePy.FormatCell: requires a number or a missing value. On a text cell the source's
  `f"${x:,.0f}"` raises `ValueError` (`Tabs/RevShare.py:15`); that failure is not modelled.
- RevSharePy.DataFrame.FormatAsMoney: requires the listed columns to hold numbers or missing values,
  for the same reason as `FormatCell`.
- The Streamlit dashboard tab re-reads the three CSV files with its own `load_data` when its module is
  imported (`Tabs/RLGDashboard.py:36-55`). It derives the same `Month`, `Week`, `MonthDate` and `WeekDate`
  values as `data_loader.py`, but it parses `MatterCreationDate` without `errors="coerce"`. A creation
  date that is text and not a date then leaves the column unparsed, and `.dt` at line 53 raises when
  the module loads. `RlgDashboardPy` is fed `DataLoader`'s rows instead, where such a date is missing
  and is filtered out; the failure on import is not modelled.
- RevSharePy.FilterRevShare: the model states that the rows are sorted by date and are a permutation
  of the selected rows. It does not fix the order of rows with equal dates; pandas' default sort is not
  stable.
- StreamlitApp.Bounds: requires the three tables to be non-empty. The source's behaviour on an empty
  table, where `min()` gives `NaT`, is not modelled.
- RlgDashboardPy.StaffThresholds: requires a non-empty roster. With an empty `custom_staff_list` the
  source's division at `Tabs/RLGDashboard.py:67` raises `ZeroDivisionError`; that failure is not modelled.
- RlgDashboardPy.LastSelectedMonth: requires at least one filtered revenue row. On an empty selection the
  source's `max()` at `Tabs/RLGDashboard.py:103` raises `ValueError`; that failure is not modelled.
- RevSharePy.PayoutByMonth: the model returns the (month, type) rows ordered by month and, within a month,
  by type. The source groups by `["Month", "Type"]` and then sorts by month with pandas' default sort
  (`Tabs/RevShare.py:176-181`), which is not stable, so it does not fix the order of types within a month.
- Revenue and hours rows with a blank date are not modelled: `DataLoader.RevenueRow` and
  `DataLoader.HoursRow` always carry a date. In the source such a row parses to `NaT`
  (`data_loader.py:18-19`), fails every date filter and is skipped by `min()` and `max()`.
- Auth.Authenticate: assumes every stored user record has a `password` and an `allowed_tabs` entry.
  The `KeyError` a record without them would raise is not modelled.
- Integer inputs of the settings forms are unbounded integers. The `int(...)` conversion of a value
  that is already an integer is the identity.
- The two front ends differ on the hours KPI of the revenue-share page. The React page adds the hours
  of every selected entry (`RevShare.jsx:52`). The Streamlit tab adds only the entries that have a
  payout (`Tabs/RevShare.py:169`, `Tabs/RevShare.py:187`). `RevSharePy.HoursNeedAPayout` states the
  Streamlit side. Neither side is treated as a bug.

## Findings

| source | as written | input that shows it | evidently intended | confidence | as-written member | corrected member |
|---|---|---|---|---|---|---|
| streamlit_app.py:200-217 | the default range starts on January 1 of the current year, or on `min_date` if later, and is passed to the date picker together with `max_date` = day after the latest record | every record dated 2025-03-10 and today 2026-10-15: `max_date` is 2025-03-11, the default start 2026-01-01 and the default end 2025-03-11, so the default start lies after both `max_date` and the default end: the default range is inverted, and the tabs' date filters, which keep dates from start to end, select nothing; how `st.date_input` itself reacts is not established | a default range inside `[min_date, max_date]`, start not after end | not executed | StreamlitApp.StaleDataPutsDefaultStartPastMaxDate | StreamlitApp.ClampedBounds |
