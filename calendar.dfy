/** Calendar dates, weekdays, week keys and month keys.

    A date is a valid proleptic Gregorian (year, month, day) triple; its day number is the
    ordinal Python's `date.toordinal()` gives (0001-01-01 is day 1), so pandas' `dayofweek`
    (Monday = 0) is `(ordinal + 6) % 7` and JavaScript's `getDay()` (Sunday = 0) is
    `ordinal % 7`. Week keys are day numbers; month keys are (year, month) pairs. */
module Calendar {
  import opened Sorting

  datatype Civil = Civil(year: int, month: int, day: int)

  predicate IsLeapYear(y: int) {
    y % 4 == 0 && (y % 100 != 0 || y % 400 == 0)
  }

  function DaysInMonth(y: int, m: int): int
    requires 1 <= m <= 12
  {
    if m == 2 then (if IsLeapYear(y) then 29 else 28)
    else if m == 4 || m == 6 || m == 9 || m == 11 then 30
    else 31
  }

  predicate IsValid(c: Civil) {
    1 <= c.year <= 9999 && 1 <= c.month <= 12 && 1 <= c.day <= DaysInMonth(c.year, c.month)
  }

  /** A calendar date (timestamps are taken at day resolution). */
  type Date = c: Civil | IsValid(c) witness Civil(2025, 1, 1)

  function DaysBeforeYear(y: int): int {
    var p := y - 1;
    365 * p + p / 4 - p / 100 + p / 400
  }

  function DaysBeforeMonth(y: int, m: int): int
    requires 1 <= m <= 12
  {
    var table := [0, 31, 59, 90, 120, 151, 181, 212, 243, 273, 304, 334];
    table[m - 1] + (if m > 2 && IsLeapYear(y) then 1 else 0)
  }

  /** Day number of a date: 0001-01-01 is 1. */
  function Ordinal(d: Date): int {
    DaysBeforeYear(d.year) + DaysBeforeMonth(d.year, d.month) + d.day
  }

  /** `a <= b` on timestamps. */
  predicate OnOrBefore(a: Date, b: Date) {
    Ordinal(a) <= Ordinal(b)
  }

  /** `start <= date <= end`: both ends inclusive. */
  predicate InRange(d: Date, start: Date, end: Date) {
    OnOrBefore(start, d) && OnOrBefore(d, end)
  }

  /** pandas `dayofweek` of a day number: Monday = 0 ... Sunday = 6. */
  function WeekdayOf(n: int): int {
    (n + 6) % 7
  }

  function Weekday(d: Date): int {
    WeekdayOf(Ordinal(d))
  }

  /** Day-number arithmetic behind the weekday and week-key functions, stated on plain
      integers so that it does not depend on how the day number was computed. */
  lemma DayNumberWeekdays(n: int)
    ensures 0 <= WeekdayOf(n) <= 6
    ensures n % 7 == (WeekdayOf(n) + 1) % 7
    ensures WeekdayOf(n - WeekdayOf(n)) == 0
    ensures WeekdayOf(n - n % 7 + 1) == 0
    ensures WeekdayOf(n) != 6 ==> n - n % 7 + 1 == n - WeekdayOf(n)
    ensures WeekdayOf(n) == 6 ==> n - n % 7 + 1 == n + 1 == n - WeekdayOf(n) + 7
  {
  }

  /** JavaScript `getDay()`: Sunday = 0 ... Saturday = 6. */
  function JsDay(d: Date): (r: int)
    ensures r == (Weekday(d) + 1) % 7
  {
    var n := Ordinal(d);
    DayNumberWeekdays(n);
    n % 7
  }

  /** Python week key, `date - dayofweek days`: the Monday on or before the date. */
  function WeekKey(d: Date): (w: int)
    ensures WeekdayOf(w) == 0
    ensures w <= Ordinal(d) <= w + 6
  {
    var n := Ordinal(d);
    DayNumberWeekdays(n);
    n - WeekdayOf(n)
  }

  /** JavaScript week key, `date - getDay() + 1`: the Monday of the week for Monday to
      Saturday, but the FOLLOWING Monday for a Sunday. */
  function JsWeekKey(d: Date): (w: int)
    ensures WeekdayOf(w) == 0
    ensures Weekday(d) != 6 ==> w == WeekKey(d)
    ensures Weekday(d) == 6 ==> w == WeekKey(d) + 7 && w == Ordinal(d) + 1
  {
    var n := Ordinal(d);
    DayNumberWeekdays(n);
    n - JsDay(d) + 1
  }

  datatype MonthKey = MonthKey(year: int, month: int)

  /** The `YYYY-MM` period of a date (pandas `to_period("M")`, JS `toISOString().slice(0, 7)`). */
  function MonthOf(d: Date): MonthKey {
    MonthKey(d.year, d.month)
  }

  /** The first day of the date's month (pandas `to_period("M").to_timestamp()`). */
  function MonthStart(d: Date): (r: Date)
    ensures MonthOf(r) == MonthOf(d) && r.day == 1
    ensures OnOrBefore(r, d)
  {
    Civil(d.year, d.month, 1)
  }

  /** January 1st of a year (`pd.Timestamp(year, 1, 1)`). */
  function YearStart(y: int): (r: Date)
    requires 1 <= y <= 9999
    ensures r.year == y
    ensures forall d: Date :: d.year == y ==> OnOrBefore(r, d)
  {
    Civil(y, 1, 1)
  }

  /** Chronological order of month keys. */
  predicate MonthBefore(a: MonthKey, b: MonthKey) {
    a.year < b.year || (a.year == b.year && a.month < b.month)
  }

  lemma DivSteps(y: int)
    ensures y / 4 - (y - 1) / 4 == if y % 4 == 0 then 1 else 0
    ensures y / 100 - (y - 1) / 100 == if y % 100 == 0 then 1 else 0
    ensures y / 400 - (y - 1) / 400 == if y % 400 == 0 then 1 else 0
  {
  }

  lemma MultipleMod(k: int)
    ensures (400 * k) % 100 == 0
    ensures (100 * k) % 4 == 0
  {
  }

  lemma DivisibilityChain(y: int)
    ensures y % 400 == 0 ==> y % 100 == 0
    ensures y % 100 == 0 ==> y % 4 == 0
  {
    if y % 400 == 0 {
      var k := y / 400;
      assert y == 400 * k;
      MultipleMod(k);
    }
    if y % 100 == 0 {
      var k := y / 100;
      assert y == 100 * k;
      MultipleMod(k);
    }
  }

  /** A year has 366 days when it is a leap year and 365 otherwise. */
  lemma YearLength(y: int)
    ensures DaysBeforeYear(y + 1) == DaysBeforeYear(y) + (if IsLeapYear(y) then 366 else 365)
  {
    DivSteps(y);
    DivisibilityChain(y);
    var a, b, c := y / 4 - (y - 1) / 4, y / 100 - (y - 1) / 100, y / 400 - (y - 1) / 400;
    assert DaysBeforeYear(y + 1) - DaysBeforeYear(y) == 365 + a - b + c;
  }

  /** A date's day number is at most the number of days before the next year. */
  lemma OrdinalWithinYear(d: Date)
    ensures Ordinal(d) <= DaysBeforeYear(d.year + 1)
  {
    YearLength(d.year);
    assert DaysBeforeMonth(d.year, d.month) + DaysInMonth(d.year, d.month)
        <= if IsLeapYear(d.year) then 366 else 365;
  }

  lemma {:induction false} DaysBeforeYearMonotone(y1: int, y2: int)
    requires 1 <= y1 <= y2
    ensures DaysBeforeYear(y1) <= DaysBeforeYear(y2)
    decreases y2 - y1
  {
    if y1 < y2 {
      DaysBeforeYearMonotone(y1 + 1, y2);
      YearLength(y1);
    }
  }

  /** Dates in an earlier month have smaller day numbers. */
  lemma OrdinalFollowsMonths(a: Date, b: Date)
    requires MonthBefore(MonthOf(a), MonthOf(b))
    ensures Ordinal(a) < Ordinal(b)
  {
    if a.year < b.year {
      OrdinalWithinYear(a);
      DaysBeforeYearMonotone(a.year + 1, b.year);
    } else {
      assert DaysBeforeMonth(a.year, a.month) + DaysInMonth(a.year, a.month) <= DaysBeforeMonth(b.year, b.month);
    }
  }

  lemma MonthBeforeIsStrictTotal()
    ensures IsStrictTotalOrder(MonthBefore)
  {
  }

  /** The calendar-previous month (`- pd.DateOffset(months=1)`). */
  function PrevMonth(k: MonthKey): (r: MonthKey)
    requires 1 <= k.month <= 12
    ensures 1 <= r.month <= 12
    ensures MonthBefore(r, k)
    ensures forall x: MonthKey :: 1 <= x.month <= 12 ==> !(MonthBefore(r, x) && MonthBefore(x, k))
  {
    if k.month == 1 then MonthKey(k.year - 1, 12) else MonthKey(k.year, k.month - 1)
  }

  /** The weekday rule agrees with the calendar: 2025-03-12 is a Wednesday and its week
      starts on Monday 2025-03-10; 2025-03-16 is a Sunday. */
  lemma WeekKeyExample()
    ensures Weekday(Civil(2025, 3, 12)) == 2
    ensures WeekKey(Civil(2025, 3, 12)) == Ordinal(Civil(2025, 3, 10))
    ensures Weekday(Civil(2025, 3, 16)) == 6
    ensures JsWeekKey(Civil(2025, 3, 16)) == Ordinal(Civil(2025, 3, 17))
  {
  }
}
