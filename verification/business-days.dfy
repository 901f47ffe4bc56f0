/**
 US banking days and the semi-monthly pay schedule built on them
 (src/modules/bills/business-days.ts).
 */
module BusinessDays {
  import opened Calendar

  // ---------------------------------------------------------------- holidays

  /** The `n`th given weekday of a month; `n == -1` is the last one. */
  function NthWeekday(y: int, m: int, dow: int, n: int): (r: Date)
    requires 1 <= m <= 12 && 0 <= dow <= 6 && (n == -1 || 1 <= n <= 4)
    ensures Valid(r)
  {
    if n == -1 then
      var last := Date(y, m, DaysInMonth(y, m));
      Iso(y, m, last.d - (Weekday(last) - dow + 7) % 7)
    else
      Iso(y, m, 1 + (dow - Weekday(Date(y, m, 1)) + 7) % 7 + (n - 1) * 7)
  }

  function Observed(t: Date): (r: Date)
    requires Valid(t)
    ensures Valid(r)
  {
    if Weekday(t) == 0 then Shift(t, 1) else t
  }

  /** The eleven Federal Reserve holidays of a year, in calendar order. */
  function Holiday(y: int, k: int): (r: Date)
    requires 0 <= k < 11
    ensures Valid(r)
  {
    match k
    case 0 => Observed(Date(y, 1, 1))
    case 1 => NthWeekday(y, 1, 1, 3)
    case 2 => NthWeekday(y, 2, 1, 3)
    case 3 => NthWeekday(y, 5, 1, -1)
    case 4 => Observed(Date(y, 6, 19))
    case 5 => Observed(Date(y, 7, 4))
    case 6 => NthWeekday(y, 9, 1, 1)
    case 7 => NthWeekday(y, 10, 1, 2)
    case 8 => Observed(Date(y, 11, 11))
    case 9 => NthWeekday(y, 11, 4, 4)
    case _ => Observed(Date(y, 12, 25))
  }

  function Holidays(y: int): set<Date> {
    set k | 0 <= k < 11 :: Holiday(y, k)
  }

  predicate BusinessDay(t: Date)
    requires Valid(t)
  {
    Weekday(t) != 0 && Weekday(t) != 6 && t !in Holidays(t.y)
  }

  /** Going forward from day `n` by the remainder reaches weekday `dow`; so does going back. */
  lemma WeekdayArithmetic(n: int, dow: int, weeks: int)
    requires 0 <= dow <= 6
    ensures (n + (dow - (n + 4) % 7 + 7) % 7 + weeks * 7 + 4) % 7 == dow
    ensures (n - ((n + 4) % 7 - dow + 7) % 7 + 4) % 7 == dow
  {
    var w := (n + 4) % 7;
    var q := (n + 4) / 7;
    assert n + 4 == 7 * q + w;
    var f := (dow - w + 7) % 7;
    assert f == dow - w || f == dow - w + 7;
    SevenFold(q + weeks, dow);
    SevenFold(q + weeks + 1, dow);
    var b := (w - dow + 7) % 7;
    assert b == w - dow || b == w - dow + 7;
    SevenFold(q, dow);
    SevenFold(q - 1, dow);
  }

  lemma SevenFold(q: int, r: int)
    requires 0 <= r <= 6
    ensures (7 * q + r) % 7 == r
  {
  }

  /** The `n`th weekday falls in the month's `n`th seven days (or its last seven), on that weekday. */
  lemma NthWeekdayLands(y: int, m: int, dow: int, n: int)
    requires 1 <= m <= 12 && 0 <= dow <= 6 && (n == -1 || 1 <= n <= 4)
    ensures var r := NthWeekday(y, m, dow, n);
            && r.y == y && r.m == m && Weekday(r) == dow
            && (n == -1 ==> DaysInMonth(y, m) - 6 <= r.d <= DaysInMonth(y, m))
            && (n != -1 ==> 7 * (n - 1) + 1 <= r.d <= 7 * n)
  {
    if n == -1 {
      var last := Date(y, m, DaysInMonth(y, m));
      IsoInMonth(Date(y, m, last.d - (Weekday(last) - dow + 7) % 7));
      WeekdayArithmetic(DayNumber(last), dow, 0);
    } else {
      var first := Date(y, m, 1);
      IsoInMonth(Date(y, m, 1 + (dow - Weekday(first) + 7) % 7 + (n - 1) * 7));
      WeekdayArithmetic(DayNumber(first), dow, n - 1);
    }
  }

  /** First and last possible day of the year (from 0) of each holiday, before leap days. */
  const EARLIEST: seq<int> := [0, 14, 45, 144, 169, 184, 243, 280, 314, 325, 358]
  const LATEST: seq<int> := [1, 20, 51, 150, 170, 185, 249, 286, 315, 331, 359]

  lemma HolidayWindow(y: int, k: int)
    requires 0 <= k < 11
    ensures Holiday(y, k).y == y
    ensures var leap := if k >= 3 && IsLeap(y) then 1 else 0;
            DayFromYear(y) + EARLIEST[k] + leap <= DayNumber(Holiday(y, k)) <= DayFromYear(y) + LATEST[k] + leap
  {
    match k {
      case 0 => ObservedLands(y, 1, 1);
      case 1 => NthWeekdayLands(y, 1, 1, 3);
      case 2 => NthWeekdayLands(y, 2, 1, 3);
      case 3 => NthWeekdayLands(y, 5, 1, -1);
      case 4 => ObservedLands(y, 6, 19);
      case 5 => ObservedLands(y, 7, 4);
      case 6 => NthWeekdayLands(y, 9, 1, 1);
      case 7 => NthWeekdayLands(y, 10, 1, 2);
      case 8 => ObservedLands(y, 11, 11);
      case 9 => NthWeekdayLands(y, 11, 4, 4);
      case _ => ObservedLands(y, 12, 25);
    }
    DaysBeforeMonthTable(y, Holiday(y, k).m);
  }

  lemma ObservedLands(y: int, m: int, d: int)
    requires Valid(Date(y, m, d)) && d < DaysInMonth(y, m)
    ensures Observed(Date(y, m, d)) in {Date(y, m, d), Date(y, m, d + 1)}
  {
    assert Shift(Date(y, m, d), 1) == Next(Shift(Date(y, m, d), 0));
  }

  /** A holiday that falls on a weekday of its month: the date range says which one. */
  predicate OnWeekday(t: Date, m: int, dow: int, first: int, last: int)
    requires Valid(t)
  {
    t.m == m && Weekday(t) == dow && first <= t.d <= last
  }

  /** A holiday with a fixed date, kept on the Monday after when it falls on a Sunday. */
  predicate OnFixedDay(t: Date, m: int, d: int)
    requires Valid(t)
  {
    t.m == m && ((t.d == d && Weekday(t) != 0) || (t.d == d + 1 && Weekday(t) == 1))
  }

  /** The days banks are closed besides weekends, as the calendar names them. */
  predicate FederalHoliday(t: Date)
    requires Valid(t)
  {
    || OnFixedDay(t, 1, 1)              // New Year
    || OnWeekday(t, 1, 1, 15, 21)       // Martin Luther King: the third Monday of January
    || OnWeekday(t, 2, 1, 15, 21)       // Presidents: the third Monday of February
    || OnWeekday(t, 5, 1, 25, 31)       // Memorial Day: the last Monday of May
    || OnFixedDay(t, 6, 19)             // Juneteenth
    || OnFixedDay(t, 7, 4)              // Independence Day
    || OnWeekday(t, 9, 1, 1, 7)         // Labor Day: the first Monday of September
    || OnWeekday(t, 10, 1, 8, 14)       // Columbus Day: the second Monday of October
    || OnFixedDay(t, 11, 11)            // Veterans Day
    || OnWeekday(t, 11, 4, 22, 28)      // Thanksgiving: the fourth Thursday of November
    || OnFixedDay(t, 12, 25)            // Christmas
  }

  /** The computed set of a year is exactly those days of it. */
  lemma HolidaysAre(t: Date)
    requires Valid(t)
    ensures t in Holidays(t.y) <==> FederalHoliday(t)
  {
    hide NthWeekday, Observed, Weekday, DayNumber;
    WeekdayHoliday(t, 1, 1, 3, 15);
    WeekdayHoliday(t, 2, 1, 3, 15);
    LastMondayOfMay(t);
    WeekdayHoliday(t, 9, 1, 1, 1);
    WeekdayHoliday(t, 10, 1, 2, 8);
    WeekdayHoliday(t, 11, 4, 4, 22);
    FixedHoliday(t, 1, 1);
    FixedHoliday(t, 6, 19);
    FixedHoliday(t, 7, 4);
    FixedHoliday(t, 11, 11);
    FixedHoliday(t, 12, 25);
    ElevenHolidays(t);
  }

  lemma ElevenHolidays(t: Date)
    ensures t in Holidays(t.y) <==>
            || t == Holiday(t.y, 0) || t == Holiday(t.y, 1) || t == Holiday(t.y, 2) || t == Holiday(t.y, 3) || t == Holiday(t.y, 4)
            || t == Holiday(t.y, 5) || t == Holiday(t.y, 6) || t == Holiday(t.y, 7) || t == Holiday(t.y, 8) || t == Holiday(t.y, 9)
            || t == Holiday(t.y, 10)
  {
    hide Holiday;
  }

  lemma WeekdayHoliday(t: Date, m: int, dow: int, n: int, first: int)
    requires Valid(t) && 1 <= m <= 12 && 0 <= dow <= 6 && 1 <= n <= 4 && first == 7 * (n - 1) + 1
    ensures t == NthWeekday(t.y, m, dow, n) <==> OnWeekday(t, m, dow, first, first + 6)
  {
    NthWeekdayLands(t.y, m, dow, n);
    if OnWeekday(t, m, dow, first, first + 6) { OneInSeven(t, NthWeekday(t.y, m, dow, n)); }
  }

  lemma LastMondayOfMay(t: Date)
    requires Valid(t)
    ensures t == NthWeekday(t.y, 5, 1, -1) <==> OnWeekday(t, 5, 1, 25, 31)
  {
    NthWeekdayLands(t.y, 5, 1, -1);
    if OnWeekday(t, 5, 1, 25, 31) { OneInSeven(t, NthWeekday(t.y, 5, 1, -1)); }
  }

  /** Two days of a month less than a week apart are not the same weekday. */
  lemma OneInSeven(a: Date, b: Date)
    requires Valid(a) && Valid(b) && a.y == b.y && a.m == b.m && Weekday(a) == Weekday(b) && -7 < a.d - b.d < 7
    ensures a == b
  {
    assert DayNumber(a) - DayNumber(b) == a.d - b.d;
  }

  lemma FixedHoliday(t: Date, m: int, d: int)
    requires Valid(t) && Valid(Date(t.y, m, d)) && d < DaysInMonth(t.y, m)
    ensures t == Observed(Date(t.y, m, d)) <==> OnFixedDay(t, m, d)
  {
    var named, next := Date(t.y, m, d), Date(t.y, m, d + 1);
    ObservedLands(t.y, m, d);
    assert DayNumber(next) == DayNumber(named) + 1;
    assert Shift(named, 1) == Next(Shift(named, 0)) == next;
    hide DayNumber, Shift;
    NextWeekday(DayNumber(named));
  }

  lemma NextWeekday(n: int)
    ensures (n + 4) % 7 == 0 <==> (n + 1 + 4) % 7 == 1
  {
  }

  lemma WindowsApart(i: int, j: int)
    requires 0 <= i < j < 11
    ensures EARLIEST[j] - LATEST[i] >= 5
    decreases j
  {
    if i < j - 1 { WindowsApart(i, j - 1); }
  }

  /** Two different bank holidays are at least five days apart, also across a new year. */
  lemma HolidaysApart(a: Date, b: Date)
    requires Valid(a) && Valid(b) && a in Holidays(a.y) && b in Holidays(b.y)
    requires DayNumber(a) < DayNumber(b)
    ensures DayNumber(b) - DayNumber(a) >= 5
  {
    var i :| 0 <= i < 11 && a == Holiday(a.y, i);
    var j :| 0 <= j < 11 && b == Holiday(b.y, j);
    HolidayNumbersApart(a.y, i, b.y, j);
  }

  lemma HolidayNumbersApart(y: int, i: int, z: int, j: int)
    requires 0 <= i < 11 && 0 <= j < 11
    requires DayNumber(Holiday(y, i)) < DayNumber(Holiday(z, j))
    ensures DayNumber(Holiday(z, j)) - DayNumber(Holiday(y, i)) >= 5
  {
    HolidayWindow(y, i);
    HolidayWindow(z, j);
    if y < z {
      YearsOrdered(y, z);
    } else if z < y {
      YearsOrdered(z, y);
    } else if i < j {
      WindowsApart(i, j);
    } else if j < i {
      WindowsApart(j, i);
    }
  }

  // ------------------------------------------------- the business day before

  /** Of four days in a row, two are not on a weekend. */
  lemma TwoWeekdays(n: int) returns (i: int, j: int)
    ensures 0 <= i < j <= 3
    ensures (n - i + 4) % 7 !in {0, 6} && (n - j + 4) % 7 !in {0, 6}
  {
    var q, w := (n + 4) / 7, (n + 4) % 7;
    if w == 0 { i, j := 2, 3; SevenFold(q - 1, 5); SevenFold(q - 1, 4); }
    else if w == 1 { i, j := 0, 3; SevenFold(q - 1, 5); }
    else if w == 6 { i, j := 1, 2; SevenFold(q, 5); SevenFold(q, 4); }
    else { i, j := 0, 1; SevenFold(q, w - 1); }
  }

  /** Of two weekdays at most four days apart, one is a business day. */
  lemma NotBothHolidays(a: Date, b: Date)
    requires Valid(a) && Valid(b) && 1 <= DayNumber(b) - DayNumber(a) <= 3
    requires Weekday(a) !in {0, 6} && Weekday(b) !in {0, 6}
    ensures BusinessDay(a) || BusinessDay(b)
  {
    hide DayNumber, Holidays;
    if a in Holidays(a.y) && b in Holidays(b.y) { HolidaysApart(a, b); }
  }

  /** Among any four days in a row at least one is a business day. */
  lemma FourDaysHoldABusinessDay(t: Date) returns (back: int)
    requires Valid(t)
    ensures 0 <= back <= 3 && BusinessDay(Shift(t, -back))
  {
    hide DayNumber, Holidays, Shift, BusinessDay;
    var i, j := TwoWeekdays(DayNumber(t));
    ShiftMovesDayNumber(t, -i);
    ShiftMovesDayNumber(t, -j);
    NotBothHolidays(Shift(t, -j), Shift(t, -i));
    back := if BusinessDay(Shift(t, -i)) then i else j;
  }

  /** No business day from `from` (exclusive) to `to` (inclusive). */
  ghost predicate Closed(from: Date, to: Date)
    requires Valid(from) && Valid(to)
  {
    forall u :: Valid(u) && Before(from, u) && AtMost(u, to) ==> !BusinessDay(u)
  }

  function LastOpen(t: Date, days: nat): (r: Date)
    requires Valid(t)
    ensures Valid(r) && AtMost(r, t) && Closed(r, t)
    ensures DayNumber(t) - days <= DayNumber(r)
    ensures BusinessDay(r) || DayNumber(r) == DayNumber(t) - days
    decreases days
  {
    if BusinessDay(t) || days == 0 then t
    else
      NextIsOneLater(Prev(t));
      ClosedExtends(LastOpen(Prev(t), days - 1), Prev(t), t);
      LastOpen(Prev(t), days - 1)
  }

  lemma ClosedExtends(from: Date, to: Date, next: Date)
    requires Valid(from) && Valid(to) && Valid(next) && next == Next(to)
    requires Closed(from, to) && !BusinessDay(next)
    ensures Closed(from, next)
  {
    forall u | Valid(u) && Before(from, u) && AtMost(u, next)
      ensures !BusinessDay(u)
    {
      if Before(to, u) { NextIsFirstAfter(to, u); }
    }
  }

  /** The closest business day not after `t`: the greatest one, at most three days back. */
  function OnOrBefore(t: Date): (r: Date)
    requires Valid(t)
    ensures Valid(r) && BusinessDay(r) && AtMost(r, t) && Closed(r, t)
    ensures DayNumber(t) - 3 <= DayNumber(r)
  {
    ThreeBackSuffice(t);
    LastOpen(t, 3)
  }

  lemma ThreeBackSuffice(t: Date)
    requires Valid(t)
    ensures BusinessDay(LastOpen(t, 3))
  {
    hide DayNumber, Shift, BusinessDay, LastOpen;
    var back := FourDaysHoldABusinessDay(t);
    var open, r := Shift(t, -back), LastOpen(t, 3);
    ShiftMovesDayNumber(t, -back);
    OrderIsDayOrder(r, open);
    OrderIsDayOrder(open, t);
  }

  lemma OnOrBeforeIsUnique(t: Date, r: Date)
    requires Valid(t) && Valid(r) && BusinessDay(r) && AtMost(r, t) && Closed(r, t)
    ensures r == OnOrBefore(t)
  {
  }

  lemma OnOrBeforeInMonth(t: Date)
    requires Valid(t) && t.d > 3
    ensures var r := OnOrBefore(t); r.y == t.y && r.m == t.m && t.d - 3 <= r.d <= t.d
  {
    var r := OnOrBefore(t);
    OrderIsDayOrder(r, Date(t.y, t.m, t.d - 3));
  }

  // ------------------------------------------------------- the pay schedule

  /** A half of a month: its first pay date, or its end-of-month one. */
  datatype Half = Half(y: int, m: int, end: bool) {
    predicate Valid() { 1 <= m <= 12 }

    function Succ(): (h: Half)
      requires Valid()
      ensures h.Valid() && h.end == !end
    {
      if !end then Half(y, m, true) else if m < 12 then Half(y, m + 1, false) else Half(y + 1, 1, false)
    }

    predicate AtMost(other: Half) {
      y < other.y || (y == other.y && (m < other.m || (m == other.m && (end ==> other.end))))
    }
  }

  type PayHalf = h: Half | h.Valid() witness Half(1970, 1, false)

  function PayDate(h: PayHalf): (r: Date)
    ensures Valid(r)
  {
    OnOrBefore(Date(h.y, h.m, if h.end then DaysInMonth(h.y, h.m) else 15))
  }

  /** Each month has two ordered pay dates, both business days inside the month. */
  lemma PayDateInMonth(h: PayHalf)
    ensures var p := PayDate(h);
            && p.y == h.y && p.m == h.m && BusinessDay(p)
            && (if h.end then DaysInMonth(h.y, h.m) - 3 <= p.d else 12 <= p.d <= 15)
  {
    OnOrBeforeInMonth(Date(h.y, h.m, if h.end then DaysInMonth(h.y, h.m) else 15));
  }

  /** The pay dates are in the order of their halves. */
  lemma PayDatesOrdered(a: PayHalf, b: PayHalf)
    ensures AtMost(PayDate(a), PayDate(b)) <==> a.AtMost(b)
    ensures PayDate(a) == PayDate(b) <==> a == b
  {
    PayDateInMonth(a);
    PayDateInMonth(b);
  }

  /** The half whose pay date is the first one after `t`. */
  function NextHalf(t: Date): PayHalf
    requires Valid(t)
  {
    if Before(t, PayDate(Half(t.y, t.m, false))) then Half(t.y, t.m, false)
    else if Before(t, PayDate(Half(t.y, t.m, true))) then Half(t.y, t.m, true)
    else Half(t.y, t.m, true).Succ()
  }

  /** A pay date is after `t` exactly from that half on, so `PayDate(NextHalf(t))` is the least one after `t`. */
  lemma NextHalfIsLeast(t: Date, h: PayHalf)
    requires Valid(t)
    ensures Before(t, PayDate(h)) <==> NextHalf(t).AtMost(h)
  {
    hide PayDate;
    PayDateInMonth(h);
    PayDateInMonth(Half(t.y, t.m, false));
    PayDateInMonth(Half(t.y, t.m, true));
  }

  function NextPayDate(t: Date): (r: Date)
    requires Valid(t)
    ensures Valid(r) && Before(t, r)
  {
    NextHalfIsLeast(t, NextHalf(t));
    PayDate(NextHalf(t))
  }

  /** The half `n` places after `h`. */
  function Plus(h: PayHalf, n: nat): PayHalf {
    if n == 0 then h else Plus(h, n - 1).Succ()
  }

  /** `n` steps of the schedule from `t`. */
  function PayIterate(t: Date, n: nat): (r: Date)
    requires Valid(t)
    ensures Valid(r)
  {
    if n == 0 then t else NextPayDate(PayIterate(t, n - 1))
  }

  lemma AfterPayDate(h: PayHalf)
    ensures NextHalf(PayDate(h)) == h.Succ()
  {
    var t := PayDate(h);
    PayDateInMonth(h);
    NextHalfIsLeast(t, h);
    NextHalfIsLeast(t, h.Succ());
    PayDatesOrdered(h, h.Succ());
  }

  /** Iterating from any date visits the pay dates after it one by one, skipping none. */
  lemma {:induction false} IterationEnumerates(t: Date, n: nat)
    requires Valid(t)
    ensures PayIterate(t, n + 1) == PayDate(Plus(NextHalf(t), n))
  {
    hide NextHalf, PayDate;
    if n == 0 {
      assert PayIterate(t, 1) == NextPayDate(PayIterate(t, 0));
    } else {
      IterationEnumerates(t, n - 1);
      AfterPayDate(Plus(NextHalf(t), n - 1));
    }
  }

  // ----------------------------------------------------------- the recogniser

  /** `t` is that pay date or the day after it. */
  predicate PostedFor(t: Date, h: PayHalf)
    requires Valid(t)
  {
    0 <= DayNumber(t) - DayNumber(PayDate(h)) <= 1
  }

  function PreviousEnd(y: int, m: int): PayHalf
    requires 1 <= m <= 12
  {
    if m == 1 then Half(y - 1, 12, true) else Half(y, m - 1, true)
  }

  /** What the code tests for one date: its month's two pay dates and the previous month's last one. */
  predicate MidMonth(t: Date)
    requires Valid(t)
  {
    PostedFor(t, Half(t.y, t.m, false))
  }

  predicate MonthEnd(t: Date)
    requires Valid(t)
  {
    PostedFor(t, Half(t.y, t.m, true)) || PostedFor(t, PreviousEnd(t.y, t.m))
  }

  lemma PostedForDay(t: Date, h: PayHalf)
    requires Valid(t)
    ensures PostedFor(t, h) <==> t == PayDate(h) || t == Next(PayDate(h))
  {
    var p := PayDate(h);
    NextIsOneLater(p);
    OrderIsDayOrder(t, p);
    OrderIsDayOrder(t, Next(p));
  }

  /** The three anchors the code looks at are all there are: a pay date within a day of `t` is one of them. */
  lemma AnchorsSuffice(t: Date, h: PayHalf)
    requires Valid(t) && PostedFor(t, h)
    ensures if h.end then MonthEnd(t) else MidMonth(t)
  {
    PayDateInMonth(h);
    PostedForDay(t, h);
  }

  /** No date is near both kinds of pay date. */
  lemma KindsExclude(t: Date)
    requires Valid(t)
    ensures !(MidMonth(t) && MonthEnd(t))
  {
    var mid, end, previous := Half(t.y, t.m, false), Half(t.y, t.m, true), PreviousEnd(t.y, t.m);
    PayDateInMonth(mid);
    PayDateInMonth(end);
    PayDateInMonth(previous);
    PostedForDay(t, mid);
    PostedForDay(t, end);
    PostedForDay(t, previous);
  }

  type Day = t: Date | Valid(t) witness Date(1970, 1, 1)

  /** At least three deposits, each for some pay date, of both kinds. */
  ghost predicate Semimonthly(dates: seq<Day>) {
    && |dates| >= 3
    && (forall t :: t in dates ==> exists h :: PostedFor(t, h))
    && (exists t, h: PayHalf :: t in dates && !h.end && PostedFor(t, h))
    && (exists t, h: PayHalf :: t in dates && h.end && PostedFor(t, h))
  }

  /** Deposits for consecutive pay dates from half `h` on, each on time or one day late. */
  ghost predicate Deposits(dates: seq<Day>, h: PayHalf) {
    forall i :: 0 <= i < |dates| ==> PostedFor(dates[i], Plus(h, i))
  }

  /** Three or more consecutive pay dates, on time or a day late, meet the recogniser's test. */
  lemma GeneratorIsRecognised(dates: seq<Day>, h: PayHalf)
    requires |dates| >= 3 && Deposits(dates, h)
    ensures Semimonthly(dates)
  {
    assert dates[0] in dates && PostedFor(dates[0], Plus(h, 0));
    assert dates[1] in dates && PostedFor(dates[1], Plus(h, 1));
    assert Plus(h, 1) == Plus(h, 0).Succ();
  }

  /** The per-date tests of the code say exactly `Semimonthly`. */
  lemma AnchorTestsMean(dates: seq<Day>)
    requires |dates| >= 3
    ensures Semimonthly(dates) <==>
            && (forall t :: t in dates ==> MidMonth(t) || MonthEnd(t))
            && (exists t :: t in dates && MidMonth(t)) && (exists t :: t in dates && MonthEnd(t))
  {
    hide PayDate, DayNumber, PostedFor;
    forall t: Day
      ensures MidMonth(t) <==> exists h: PayHalf :: !h.end && PostedFor(t, h)
      ensures MonthEnd(t) <==> exists h: PayHalf :: h.end && PostedFor(t, h)
    {
      if h: PayHalf :| !h.end && PostedFor(t, h) { AnchorsSuffice(t, h); }
      if h: PayHalf :| h.end && PostedFor(t, h) { AnchorsSuffice(t, h); }
    }
  }

  // ------------------------------------------------------------- the program

  /** The module's state: the cache of computed years. */
  class HolidayCalendar {
    var cache: map<int, set<Date>>

    ghost predicate Valid()
      reads this
    {
      forall y :: y in cache ==> cache[y] == Holidays(y)
    }

    constructor ()
      ensures Valid()
    {
      cache := map[];
    }

    method BankHolidays(year: int) returns (holidays: set<Date>)
      requires Valid()
      modifies this
      ensures Valid() && holidays == Holidays(year)
    {
      if year in cache { return cache[year]; }
      holidays := {
        Observed(Iso(year, 1, 1)),
        NthWeekday(year, 1, 1, 3),
        NthWeekday(year, 2, 1, 3),
        NthWeekday(year, 5, 1, -1),
        Observed(Iso(year, 6, 19)),
        Observed(Iso(year, 7, 4)),
        NthWeekday(year, 9, 1, 1),
        NthWeekday(year, 10, 1, 2),
        Observed(Iso(year, 11, 11)),
        NthWeekday(year, 11, 4, 4),
        Observed(Iso(year, 12, 25))
      };
      HolidaysListed(year, holidays);
      cache := cache[year := holidays];
    }

    method IsBusinessDay(date: Day) returns (open: bool)
      requires Valid()
      modifies this
      ensures Valid() && open == BusinessDay(date)
    {
      var day := Weekday(date);
      if day == 0 || day == 6 { return false; }
      var holidays := BankHolidays(date.y);
      open := date !in holidays;
    }

    method OnOrBeforeBusinessDay(date: Day) returns (cursor: Day)
      requires Valid()
      modifies this
      ensures Valid() && cursor == OnOrBefore(date)
    {
      cursor := date;
      ghost var floor := OnOrBefore(date);
      var open := IsBusinessDay(cursor);
      while !open
        invariant Valid() && open == BusinessDay(cursor)
        invariant AtMost(floor, cursor) && AtMost(cursor, date) && Closed(cursor, date)
        decreases DayNumber(cursor) - DayNumber(floor)
      {
        OrderIsDayOrder(floor, cursor);
        cursor := StepBack(cursor, date, floor);
        open := IsBusinessDay(cursor);
      }
      OnOrBeforeIsUnique(date, cursor);
    }

    method SemimonthlyPayDates(year: int, month: int) returns (mid: Day, end: Day)
      requires Valid() && 1 <= month <= 12
      modifies this
      ensures Valid()
      ensures mid == PayDate(Half(year, month, false)) && end == PayDate(Half(year, month, true))
    {
      DayZeroIsLastDay(year, month);
      var lastDay := Utc(year, month + 1, 0).d;
      IsoInMonth(Date(year, month, 15));
      IsoInMonth(Date(year, month, lastDay));
      mid := OnOrBeforeBusinessDay(Iso(year, month, 15));
      end := OnOrBeforeBusinessDay(Iso(year, month, lastDay));
    }

    /** The final `throw` cannot be reached, so there is no error result. */
    method NextSemimonthlyPayDate(date: Day) returns (next: Day)
      requires Valid()
      modifies this
      ensures Valid()
      ensures next == NextPayDate(date)
    {
      hide PayDate;
      var offset := 0;
      while offset < 3
        invariant Valid() && 0 <= offset <= 1
        invariant offset == 1 ==> NextHalf(date) == Half(date.y, date.m, true).Succ()
        decreases 3 - offset
      {
        var index := date.m - 1 + offset;
        var mid, end := SemimonthlyPayDates(date.y + index / 12, index % 12 + 1);
        if offset == 1 { NextHalfIsLeast(date, NextHalf(date)); }
        if Before(date, mid) { return mid; }
        if Before(date, end) { return end; }
        offset := offset + 1;
      }
      assert false;
      next := date;
    }

    method LooksSemimonthly(dates: seq<Day>) returns (looks: bool)
      requires Valid()
      modifies this
      ensures Valid()
      ensures looks <==> Semimonthly(dates)
    {
      hide PayDate, DayNumber, Near, PostedFor, Semimonthly;
      if |dates| < 3 {
        FewAreNot(dates);
        return false;
      }
      AnchorTestsMean(dates);
      var mid, end := false, false;
      for i := 0 to |dates|
        invariant Valid()
        invariant forall t :: t in dates[..i] ==> MidMonth(t) || MonthEnd(t)
        invariant mid <==> exists t :: t in dates[..i] && MidMonth(t)
        invariant end <==> exists t :: t in dates[..i] && MonthEnd(t)
      {
        var date := dates[i];
        assert dates[..i + 1] == dates[..i] + [date];
        KindsExclude(date);
        NearIsPosted(date);
        var fifteenth, last := SemimonthlyPayDates(date.y, date.m);
        var _, previous := SemimonthlyPayDates(if date.m == 1 then date.y - 1 else date.y,
                                               if date.m == 1 then 12 else date.m - 1);
        if Near(date, fifteenth) { mid := true; }
        else if Near(date, last) || Near(date, previous) { end := true; }
        else { return false; }
      }
      assert dates[..|dates|] == dates;
      looks := mid && end;
    }
  }

  /** `dayDiff(date, anchor)` is 0 or 1. */
  predicate Near(date: Day, anchor: Day) {
    var diff := DayNumber(date) - DayNumber(anchor);
    diff >= 0 && diff <= 1
  }

  lemma FewAreNot(dates: seq<Day>)
    ensures |dates| < 3 ==> !Semimonthly(dates)
  {
  }

  lemma NearIsPosted(date: Day)
    ensures forall h: PayHalf :: Near(date, PayDate(h)) <==> PostedFor(date, h)
  {
    hide PayDate, DayNumber;
  }

  /** One step of the search back from `date`, which never passes the answer. */
  function StepBack(cursor: Day, date: Day, ghost floor: Day): (r: Day)
    requires !BusinessDay(cursor) && BusinessDay(floor)
    requires AtMost(floor, cursor) && AtMost(cursor, date) && Closed(cursor, date)
    ensures AtMost(floor, r) && AtMost(r, date) && Closed(r, date)
    ensures DayNumber(r) == DayNumber(cursor) - 1 && DayNumber(floor) <= DayNumber(r)
  {
    var r := Shift(cursor, -1);
    assert r == Prev(Shift(cursor, 0));
    NextIsOneLater(r);
    NextIsFirstAfter(r, cursor);
    OrderIsDayOrder(floor, r);
    OrderIsDayOrder(floor, cursor);
    assert Closed(r, date) by {
      forall u | Valid(u) && Before(r, u) && AtMost(u, date)
        ensures !BusinessDay(u)
      {
        NextIsFirstAfter(r, u);
      }
    }
    r
  }

  lemma HolidaysListed(y: int, listed: set<Date>)
    requires listed == {
      Observed(Iso(y, 1, 1)), NthWeekday(y, 1, 1, 3), NthWeekday(y, 2, 1, 3), NthWeekday(y, 5, 1, -1),
      Observed(Iso(y, 6, 19)), Observed(Iso(y, 7, 4)), NthWeekday(y, 9, 1, 1), NthWeekday(y, 10, 1, 2),
      Observed(Iso(y, 11, 11)), NthWeekday(y, 11, 4, 4), Observed(Iso(y, 12, 25))
    }
    ensures listed == Holidays(y)
  {
    IsoInMonth(Date(y, 1, 1));
    IsoInMonth(Date(y, 6, 19));
    IsoInMonth(Date(y, 7, 4));
    IsoInMonth(Date(y, 11, 11));
    IsoInMonth(Date(y, 12, 25));
    assert listed == {Holiday(y, 0), Holiday(y, 1), Holiday(y, 2), Holiday(y, 3), Holiday(y, 4), Holiday(y, 5),
                      Holiday(y, 6), Holiday(y, 7), Holiday(y, 8), Holiday(y, 9), Holiday(y, 10)};
  }
}
