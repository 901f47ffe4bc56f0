/** The budget period around a date (src/modules/budgets/budget-calculations.ts). */
module BudgetCalculations {
  import opened Wrappers
  import opened Calendar
  import opened RecurringEngine
  import opened MonthCycles

  datatype Period = MonthlyPeriod | NotImplemented

  datatype Range = Range(start: Day, end: Day)
  {
    predicate Contains(t: Day) { AtMost(start, t) && AtMost(t, end) }
  }

  /** From the anchor day not after `t` to the day before the next one. */
  function PeriodOf(anchor: int, t: Day): Range
    requires anchor >= 1
  {
    var month := CycleMonth(anchor, t);
    Range(CycleDay(anchor, month), Prev(CycleDay(anchor, month + 1)))
  }

  function EffectiveMonthlyAnchorDay(anchor: int, y: int, m: int): int {
    if anchor <= DaysInMonth(y, m) then anchor else DaysInMonth(y, m)
  }

  lemma AnchorDay(anchor: int, y: int, m: int)
    requires anchor >= 1 && 1 <= m <= 12
    ensures CycleDay(anchor, 12 * y + m - 1) == Date(y, m, EffectiveMonthlyAnchorDay(anchor, y, m))
  {
    CycleDayIn(anchor, y, m);
  }

  lemma PeriodMonth(anchor: int, today: Day)
    requires anchor >= 1
    ensures CycleMonth(anchor, today)
            == if today.d < EffectiveMonthlyAnchorDay(anchor, today.y, today.m) then MonthIndex(today) - 1 else MonthIndex(today)
  {
    AnchorDay(anchor, today.y, today.m);
  }

  /** `None` is the error for a period that is not monthly. */
  method CurrentPeriodRange(startDate: Day, period: Period, today: Day) returns (range: Option<Range>)
    ensures range == if period.MonthlyPeriod? then Some(PeriodOf(startDate.d, today)) else None
  {
    hide DaysInMonth, Prev, Shift, CycleDay, CycleMonth, EffectiveMonthlyAnchorDay;
    var anchor := startDate.d;
    if period != MonthlyPeriod { return None; }
    var y, m := today.y, today.m;
    PeriodMonth(anchor, today);
    if today.d < EffectiveMonthlyAnchorDay(anchor, y, m) {
      m := m - 1;
      if m == 0 {
        m, y := 12, y - 1;
      }
    }
    AnchorDay(anchor, y, m);
    var start := Date(y, m, EffectiveMonthlyAnchorDay(anchor, y, m));
    var nextMonth, nextYear := m + 1, y;
    if nextMonth == 13 {
      nextMonth, nextYear := 1, y + 1;
    }
    AnchorDay(anchor, nextYear, nextMonth);
    var nextStart := Date(nextYear, nextMonth, EffectiveMonthlyAnchorDay(anchor, nextYear, nextMonth));
    ShiftBack(nextStart);
    range := Some(Range(start, Shift(nextStart, -1)));
  }

  lemma ShiftBack(t: Day)
    ensures Shift(t, -1) == Prev(t)
  {
    assert Shift(t, -1) == Prev(Shift(t, 0));
  }

  lemma BeforeNextStart(t: Day, next: Day)
    ensures AtMost(t, Prev(next)) <==> Before(t, next)
  {
    NextIsFirstAfter(Prev(next), next);
    if Before(Prev(next), t) { NextIsFirstAfter(Prev(next), t); }
  }

  lemma PeriodContains(anchor: int, t: Day, u: Day)
    requires anchor >= 1
    ensures PeriodOf(anchor, t).Contains(u) <==> CycleMonth(anchor, u) == CycleMonth(anchor, t)
  {
    hide CycleMonth, CycleDay, Before, Prev, DaysInMonth;
    var month := CycleMonth(anchor, t);
    CycleContains(anchor, u, month);
    BeforeNextStart(u, CycleDay(anchor, month + 1));
  }

  /** Periods tile the calendar: each holds its date, two dates share one or their periods are apart, and the next starts the day after. */
  lemma PeriodsTile(anchor: int, t: Day, u: Day)
    requires anchor >= 1
    ensures PeriodOf(anchor, t).Contains(t)
    ensures PeriodOf(anchor, t).Contains(u) <==> PeriodOf(anchor, u) == PeriodOf(anchor, t)
    ensures PeriodOf(anchor, Next(PeriodOf(anchor, t).end)).start == Next(PeriodOf(anchor, t).end)
  {
    hide CycleMonth, CycleDay, Before, Prev, DaysInMonth, Next, Range.Contains;
    PeriodContains(anchor, t, t);
    PeriodContains(anchor, t, u);
    var month := CycleMonth(anchor, t);
    var next := CycleDay(anchor, month + 1);
    CycleContains(anchor, next, month + 1);
    CyclesAscend(anchor, month + 1, month + 2);
    assert AtMost(next, next);
  }

  /** A period is as long as a month can be. */
  lemma PeriodLength(anchor: int, t: Day)
    requires 1 <= anchor <= 31
    ensures 28 <= DayNumber(PeriodOf(anchor, t).end) - DayNumber(PeriodOf(anchor, t).start) + 1 <= 31
  {
    var month := CycleMonth(anchor, t);
    var a, b := CycleDay(anchor, month), CycleDay(anchor, month + 1);
    NextIsOneLater(Prev(b));
    CycleLength(a, b, month, anchor);
  }

  lemma CycleLength(a: Day, b: Day, month: int, anchor: int)
    requires 1 <= anchor <= 31 && a == CycleDay(anchor, month) && b == CycleDay(anchor, month + 1)
    ensures 28 <= DayNumber(b) - DayNumber(a) <= 31
  {
    NextMonthIsLater(a, b);
  }

  lemma NextMonthIsLater(a: Day, b: Day)
    requires MonthIndex(b) == MonthIndex(a) + 1
    ensures DayNumber(b) - DayNumber(a) == DaysInMonth(a.y, a.m) + b.d - a.d
  {
    if a.m == 12 {
      YearStep(a.y);
      DecemberEnds(a.y);
    }
  }
}
