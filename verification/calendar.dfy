/**
 Calendar dates as the TypeScript code uses them: ISO `YYYY-MM-DD` strings in UTC.
 String order on four-digit years is `Before`; `Date.UTC` and `getUTCDay` follow the
 day numbers of section 21.4.1 of ECMA-262 (day 0 is 1970-01-01, a Thursday).
 */
module Calendar {

  datatype Date = Date(y: int, m: int, d: int)

  predicate IsLeap(y: int) {
    y % 4 == 0 && (y % 100 != 0 || y % 400 == 0)
  }

  function YearLength(y: int): int {
    if IsLeap(y) then 366 else 365
  }

  function DaysInMonth(y: int, m: int): (n: int)
    ensures 28 <= n <= 31
  {
    if m == 2 then (if IsLeap(y) then 29 else 28)
    else if m == 4 || m == 6 || m == 9 || m == 11 then 30
    else 31
  }

  predicate Valid(t: Date) {
    1 <= t.m <= 12 && 1 <= t.d <= DaysInMonth(t.y, t.m)
  }

  /** Order of the ISO strings. */
  predicate Before(a: Date, b: Date) {
    a.y < b.y || (a.y == b.y && (a.m < b.m || (a.m == b.m && a.d < b.d)))
  }

  predicate AtMost(a: Date, b: Date) {
    a == b || Before(a, b)
  }

  function DayFromYear(y: int): int {
    365 * (y - 1970) + (y - 1969) / 4 - (y - 1901) / 100 + (y - 1601) / 400
  }

  /** Days of year `y` before month `m`. */
  function DaysBeforeMonth(y: int, m: int): int
    requires 1 <= m <= 12
  {
    if m == 1 then 0 else DaysBeforeMonth(y, m - 1) + DaysInMonth(y, m - 1)
  }

  /** The same as a table: twelve cumulative sums. */
  lemma DaysBeforeMonthTable(y: int, m: int)
    requires 1 <= m <= 12
    ensures DaysBeforeMonth(y, m) ==
            [0, 31, 59, 90, 120, 151, 181, 212, 243, 273, 304, 334][m - 1] + (if m > 2 && IsLeap(y) then 1 else 0)
  {
    if m > 1 { DaysBeforeMonthTable(y, m - 1); }
  }

  function DayNumber(t: Date): int
    requires Valid(t)
  {
    DayFromYear(t.y) + DaysBeforeMonth(t.y, t.m) + t.d - 1
  }

  /** 0 is Sunday. */
  function Weekday(t: Date): int
    requires Valid(t)
  {
    (DayNumber(t) + 4) % 7
  }

  function Next(t: Date): (r: Date)
    requires Valid(t)
    ensures Valid(r)
    ensures Before(t, r)
  {
    if t.d < DaysInMonth(t.y, t.m) then Date(t.y, t.m, t.d + 1)
    else if t.m < 12 then Date(t.y, t.m + 1, 1)
    else Date(t.y + 1, 1, 1)
  }

  function Prev(t: Date): (r: Date)
    requires Valid(t)
    ensures Valid(r) && Next(r) == t
  {
    if t.d > 1 then Date(t.y, t.m, t.d - 1)
    else if t.m > 1 then Date(t.y, t.m - 1, DaysInMonth(t.y, t.m - 1))
    else Date(t.y - 1, 12, 31)
  }

  /** `setUTCDate(getUTCDate() + n)`. */
  function Shift(t: Date, n: int): (r: Date)
    requires Valid(t)
    ensures Valid(r)
    decreases if n < 0 then -n else n
  {
    if n == 0 then t
    else if n > 0 then Next(Shift(t, n - 1))
    else Prev(Shift(t, n + 1))
  }

  lemma QuotientStep(x: int, k: int)
    requires k == 4 || k == 100 || k == 400
    ensures (x + 1) / k == x / k + (if (x + 1) % k == 0 then 1 else 0)
  {
  }

  lemma YearStep(y: int)
    ensures DayFromYear(y + 1) == DayFromYear(y) + YearLength(y)
  {
    QuotientStep(y - 1969, 4);
    QuotientStep(y - 1901, 100);
    QuotientStep(y - 1601, 400);
    assert (y - 1968) % 4 == y % 4;
    assert (y - 1900) % 100 == y % 100;
    assert (y - 1600) % 400 == y % 400;
  }

  lemma DecemberEnds(y: int)
    ensures DaysBeforeMonth(y, 12) + 31 == YearLength(y)
  {
    DaysBeforeMonthTable(y, 12);
  }

  lemma NextIsOneLater(t: Date)
    requires Valid(t)
    ensures DayNumber(Next(t)) == DayNumber(t) + 1
  {
    if t.d == DaysInMonth(t.y, t.m) && t.m == 12 {
      YearStep(t.y);
      DecemberEnds(t.y);
    }
  }

  lemma {:induction false} ShiftMovesDayNumber(t: Date, n: int)
    requires Valid(t)
    ensures DayNumber(Shift(t, n)) == DayNumber(t) + n
    decreases if n < 0 then -n else n
  {
    if n > 0 {
      ShiftMovesDayNumber(t, n - 1);
      NextIsOneLater(Shift(t, n - 1));
    } else if n < 0 {
      ShiftMovesDayNumber(t, n + 1);
      NextIsOneLater(Shift(t, n));
    }
  }

  lemma {:induction false} YearsOrdered(y: int, z: int)
    requires y < z
    ensures DayFromYear(y) + YearLength(y) <= DayFromYear(z)
    decreases z - y
  {
    YearStep(y);
    if y + 1 < z { YearsOrdered(y + 1, z); }
  }

  lemma {:induction false} MonthsOrdered(y: int, m: int, n: int)
    requires 1 <= m < n <= 12
    ensures DaysBeforeMonth(y, m) + DaysInMonth(y, m) <= DaysBeforeMonth(y, n)
    decreases n - m
  {
    if m + 1 < n { MonthsOrdered(y, m, n - 1); }
  }

  lemma DayOfYearInRange(t: Date)
    requires Valid(t)
    ensures 0 <= DaysBeforeMonth(t.y, t.m) + t.d - 1 < YearLength(t.y)
  {
    DaysBeforeMonthTable(t.y, t.m);
  }

  lemma BeforeIncreases(a: Date, b: Date)
    requires Valid(a) && Valid(b) && Before(a, b)
    ensures DayNumber(a) < DayNumber(b)
  {
    if a.y < b.y {
      YearsOrdered(a.y, b.y);
      DayOfYearInRange(a);
      DayOfYearInRange(b);
    } else if a.m < b.m {
      MonthsOrdered(a.y, a.m, b.m);
    }
  }

  /** ISO string order is day order, so a day number names one date. */
  lemma OrderIsDayOrder(a: Date, b: Date)
    requires Valid(a) && Valid(b)
    ensures Before(a, b) <==> DayNumber(a) < DayNumber(b)
    ensures a == b <==> DayNumber(a) == DayNumber(b)
  {
    if Before(a, b) { BeforeIncreases(a, b); }
    if Before(b, a) { BeforeIncreases(b, a); }
  }

  /** Shifting is an action of the integers: shifts compose and undo each other. */
  lemma ShiftComposes(t: Date, n: int, k: int)
    requires Valid(t)
    ensures Shift(Shift(t, n), k) == Shift(t, n + k)
  {
    ShiftMovesDayNumber(t, n);
    ShiftMovesDayNumber(Shift(t, n), k);
    ShiftMovesDayNumber(t, n + k);
    OrderIsDayOrder(Shift(Shift(t, n), k), Shift(t, n + k));
  }

  /** Nothing lies strictly between a day and the next. */
  lemma NextIsFirstAfter(t: Date, u: Date)
    requires Valid(t) && Valid(u) && Before(t, u)
    ensures AtMost(Next(t), u)
  {
  }

  /** The code's `iso(year, month, day)`: a day number counted from the first of the month. */
  function Iso(year: int, month: int, day: int): (r: Date)
    requires 1 <= month <= 12
    ensures Valid(r)
  {
    Shift(Date(year, month, 1), day - 1)
  }

  lemma {:induction false} IsoInMonth(t: Date)
    requires Valid(t)
    ensures Iso(t.y, t.m, t.d) == t
  {
    var first := Date(t.y, t.m, 1);
    ShiftMovesDayNumber(first, t.d - 1);
    OrderIsDayOrder(Shift(first, t.d - 1), t);
  }

  /** `Date.UTC(year, month - 1, day)`, where months and days outside their range carry over. */
  function Utc(year: int, month: int, day: int): (r: Date)
    ensures Valid(r)
  {
    Iso(year + (month - 1) / 12, (month - 1) % 12 + 1, day)
  }

  /** Day zero of the next month is the last day of this one: how the code finds a month's length. */
  lemma DayZeroIsLastDay(year: int, month: int)
    requires 1 <= month <= 12
    ensures Utc(year, month + 1, 0) == Date(year, month, DaysInMonth(year, month))
  {
    var first := Date(year + month / 12, month % 12 + 1, 1);
    assert Shift(first, -1) == Prev(Shift(first, 0));
  }
}
