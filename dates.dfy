/**
  Calendar dates as the price table's index holds them (pandas Timestamps at
  midnight), their day numbers, weekdays and business-day offsets.
 */
module Dates {

  /** A date of the proleptic Gregorian calendar. */
  datatype Date = Date(year: int, month: int, day: int)

  predicate IsLeapYear(y: int) {
    y % 4 == 0 && (y % 100 != 0 || y % 400 == 0)
  }

  function DaysInMonth(y: int, m: int): (n: int)
    requires 1 <= m <= 12
    ensures 28 <= n <= 31
    ensures n == 29 <==> m == 2 && IsLeapYear(y)
  {
    if m == 2 then (if IsLeapYear(y) then 29 else 28)
    else if m == 4 || m == 6 || m == 9 || m == 11 then 30
    else 31
  }

  predicate ValidDate(d: Date) {
    1 <= d.month <= 12 && 1 <= d.day <= DaysInMonth(d.year, d.month)
  }

  /** pandas' `Timestamp.quarter`. */
  function Quarter(d: Date): (q: int)
    ensures 1 <= d.month <= 12 ==> 1 <= q <= 4 && 3 * (q - 1) < d.month <= 3 * q
  {
    (d.month - 1) / 3 + 1
  }

  /** Strict chronological order of two dates. */
  predicate Before(a: Date, b: Date) {
    a.year < b.year
    || (a.year == b.year && a.month < b.month)
    || (a.year == b.year && a.month == b.month && a.day < b.day)
  }

  /** The order the price table's index keeps: every date strictly before every later one. */
  predicate StrictlyIncreasing(ds: seq<Date>) {
    forall i, j :: 0 <= i < j < |ds| ==> Before(ds[i], ds[j])
  }

  predicate Distinct(ds: seq<Date>) {
    forall i, j :: 0 <= i < |ds| && 0 <= j < |ds| && i != j ==> ds[i] != ds[j]
  }

  lemma IncreasingIsDistinct(ds: seq<Date>)
    requires StrictlyIncreasing(ds)
    ensures Distinct(ds)
  {
    forall i, j | 0 <= i < |ds| && 0 <= j < |ds| && i != j
      ensures ds[i] != ds[j]
    {
      if i < j { assert Before(ds[i], ds[j]); } else { assert Before(ds[j], ds[i]); }
    }
  }

  /** The calendar day after `d`. */
  function NextDate(d: Date): Date
    requires ValidDate(d)
  {
    if d.day < DaysInMonth(d.year, d.month) then Date(d.year, d.month, d.day + 1)
    else if d.month < 12 then Date(d.year, d.month + 1, 1)
    else Date(d.year + 1, 1, 1)
  }

  /** Days from 0000-03-01 to March 1st of the (March-based) year `y`. */
  function MarchYearStart(y: int): int {
    365 * y + y / 4 - y / 100 + y / 400
  }

  /** Days from March 1st to the first of month `m` in a March-based year. */
  function MonthOffset(m: int): int {
    var mp := if m > 2 then m - 3 else m + 9;
    (153 * mp + 2) / 5
  }

  /**
    Days since 1970-01-01: the day count the Timestamp subtraction
    `(end_date - start_date).days` and every date comparison rest on.
   */
  function DayNumber(d: Date): int {
    var y := if d.month <= 2 then d.year - 1 else d.year;
    MarchYearStart(y) + MonthOffset(d.month) + d.day - 1 - 719468
  }

  lemma MonthOffsets()
    ensures MonthOffset(3) == 0 && MonthOffset(4) == 31 && MonthOffset(5) == 61
    ensures MonthOffset(6) == 92 && MonthOffset(7) == 122 && MonthOffset(8) == 153
    ensures MonthOffset(9) == 184 && MonthOffset(10) == 214 && MonthOffset(11) == 245
    ensures MonthOffset(12) == 275 && MonthOffset(1) == 306 && MonthOffset(2) == 337
  {
  }

  /** Within one March-based year, a month's length separates its offset from the next one's. */
  lemma MonthOffsetStep(y: int, m: int)
    requires 3 <= m <= 11 || m == 1
    ensures MonthOffset(m + 1) == MonthOffset(m) + DaysInMonth(y, m)
  {
    MonthOffsets();
  }

  /** Floor division by `n` steps up exactly at the multiples of `n`. */
  lemma DivStep(x: int, n: int)
    requires n == 4 || n == 100 || n == 400
    ensures (x + 1) / n == x / n + (if (x + 1) % n == 0 then 1 else 0)
  {
  }

  /** A multiple of `k * n` is a multiple of `n`. */
  lemma MultipleOfMultiple(x: int, k: int, n: int)
    requires (k == 4 && n == 100) || (k == 25 && n == 4)
    requires x % (k * n) == 0
    ensures x % n == 0
  {
    var q := x / (k * n);
    assert x == n * (k * q);
  }

  lemma MarchYearStep(y: int)
    ensures MarchYearStart(y + 1) == MarchYearStart(y) + (if IsLeapYear(y + 1) then 366 else 365)
  {
    DivStep(y, 4);
    DivStep(y, 100);
    DivStep(y, 400);
    if (y + 1) % 400 == 0 {
      MultipleOfMultiple(y + 1, 4, 100);
    }
    if (y + 1) % 100 == 0 {
      MultipleOfMultiple(y + 1, 25, 4);
    }
  }

  /** Day numbers count days: the next calendar date has the next day number. */
  lemma DayNumberOfNextDate(d: Date)
    requires ValidDate(d)
    ensures DayNumber(NextDate(d)) == DayNumber(d) + 1
  {
    if d.day < DaysInMonth(d.year, d.month) {
    } else if d.month == 2 {
      MonthOffsets();
      MarchYearStep(d.year - 1);
    } else if d.month < 12 {
      MonthOffsetStep(d.year, d.month);
    } else {
      MonthOffsets();
    }
  }

  lemma DayNumberOfEpoch()
    ensures DayNumber(Date(1970, 1, 1)) == 0
  {
  }

  /** Day of the week, Monday = 0 ... Sunday = 6 (1970-01-01 was a Thursday). */
  function Weekday(z: int): (w: int)
    ensures 0 <= w < 7
  {
    (z + 3) % 7
  }

  /** pandas' `BDay` counts Monday to Friday and nothing else (no holidays). */
  predicate IsBusinessDay(z: int) {
    Weekday(z) < 5
  }

  lemma WeekdayStep(z: int, k: int)
    requires 0 <= k <= 7
    ensures Weekday(z + k) == (Weekday(z) + k) % 7
  {
  }

  /** The first business day strictly after day `z`. */
  function NextBusinessDay(z: int): (r: int)
    ensures z < r && IsBusinessDay(r)
    ensures forall k :: z < k < r ==> !IsBusinessDay(k)
  {
    var w := Weekday(z);
    WeekdayStep(z, 1); WeekdayStep(z, 2); WeekdayStep(z, 3);
    if w == 4 then z + 3 else if w == 5 then z + 2 else z + 1
  }

  /** `z + BDay(n)` for n >= 1: the n-th business day after day `z`. */
  function AddBusinessDays(z: int, n: nat): (r: int)
    requires n >= 1
    ensures z < r && IsBusinessDay(r)
  {
    if n == 1 then NextBusinessDay(z) else NextBusinessDay(AddBusinessDays(z, n - 1))
  }

  /** The number of business days k with z < k <= r. */
  function BusinessDaysIn(z: int, r: int): nat
    decreases r - z
  {
    if r <= z then 0 else BusinessDaysIn(z, r - 1) + (if IsBusinessDay(r) then 1 else 0)
  }

  /** Days that are not business days add nothing to the count. */
  lemma {:induction false} NoBusinessDaysBetween(z: int, y: int, r: int)
    requires z <= y <= r && forall k :: y < k <= r ==> !IsBusinessDay(k)
    ensures BusinessDaysIn(z, r) == BusinessDaysIn(z, y)
    decreases r - y
  {
    if r > y {
      NoBusinessDaysBetween(z, y, r - 1);
    }
  }

  /** `z + BDay(n)` is the day on which the n-th business day after z falls. */
  lemma {:induction false} AddBusinessDaysCount(z: int, n: nat)
    requires n >= 1
    ensures BusinessDaysIn(z, AddBusinessDays(z, n)) == n
  {
    var y := if n == 1 then z else AddBusinessDays(z, n - 1);
    if n > 1 {
      AddBusinessDaysCount(z, n - 1);
    }
    var r := NextBusinessDay(y);
    NoBusinessDaysBetween(z, y, r - 1);
  }

  /**
    The closed form of `BDay(5)` pandas evaluates: a whole week later, except
    that a weekend start first rolls back to the Friday before it.
   */
  function FiveBusinessDaysAfter(z: int): int {
    var w := Weekday(z);
    if w > 4 then z + 7 + 4 - w else z + 7
  }

  /** The step from one day to the next business day, and the weekday it lands on. */
  lemma NextBusinessDayStep(z: int)
    ensures NextBusinessDay(z) == z + (if Weekday(z) == 4 then 3 else if Weekday(z) == 5 then 2 else 1)
    ensures Weekday(NextBusinessDay(z)) == (if Weekday(z) >= 4 then 0 else Weekday(z) + 1)
  {
    WeekdayStep(z, 1); WeekdayStep(z, 2); WeekdayStep(z, 3);
  }

  lemma {:induction false} FiveBusinessDaysClosedForm(z: int)
    ensures AddBusinessDays(z, 5) == FiveBusinessDaysAfter(z)
  {
    var z1 := NextBusinessDay(z);
    var z2 := NextBusinessDay(z1);
    var z3 := NextBusinessDay(z2);
    var z4 := NextBusinessDay(z3);
    assert AddBusinessDays(z, 2) == z2;
    assert AddBusinessDays(z, 3) == z3;
    assert AddBusinessDays(z, 4) == z4;
    NextBusinessDayStep(z);
    NextBusinessDayStep(z1);
    NextBusinessDayStep(z2);
    NextBusinessDayStep(z3);
    NextBusinessDayStep(z4);
  }
}
