/** A day of the month that recurs every month, moved back to the month's last day when short. */
module MonthCycles {
  import opened Calendar
  import opened RecurringEngine

  /** The cycle day of the month with this index. */
  function CycleDay(day: int, month: int): (r: Day)
    requires day >= 1
    ensures MonthIndex(r) == month
    ensures r.d == day || (r.d < day && r.d == DaysInMonth(r.y, r.m))
  {
    var y, m := month / 12, month % 12 + 1;
    Date(y, m, if day <= DaysInMonth(y, m) then day else DaysInMonth(y, m))
  }

  lemma CycleDayIn(day: int, y: int, m: int)
    requires day >= 1 && 1 <= m <= 12
    ensures CycleDay(day, 12 * y + m - 1) == Date(y, m, if day <= DaysInMonth(y, m) then day else DaysInMonth(y, m))
  {
    assert (12 * y + m - 1) / 12 == y && (12 * y + m - 1) % 12 == m - 1;
  }

  lemma MonthsOrder(a: Day, b: Day)
    ensures MonthIndex(a) < MonthIndex(b) ==> Before(a, b)
    ensures MonthIndex(a) == MonthIndex(b) <==> a.y == b.y && a.m == b.m
  {
  }

  /** The month whose cycle day is the latest one not after `t`. */
  function CycleMonth(day: int, t: Day): int
    requires day >= 1
  {
    if AtMost(CycleDay(day, MonthIndex(t)), t) then MonthIndex(t) else MonthIndex(t) - 1
  }

  /** Every date lies in exactly one cycle. */
  lemma CycleContains(day: int, t: Day, month: int)
    requires day >= 1
    ensures month == CycleMonth(day, t) <==> AtMost(CycleDay(day, month), t) && Before(t, CycleDay(day, month + 1))
  {
    hide DaysInMonth;
    MonthsOrder(CycleDay(day, month), t);
    MonthsOrder(t, CycleDay(day, month));
    MonthsOrder(t, CycleDay(day, month + 1));
    MonthsOrder(CycleDay(day, month + 1), t);
  }

  lemma CyclesAscend(day: int, a: int, b: int)
    requires day >= 1 && a < b
    ensures Before(CycleDay(day, a), CycleDay(day, b))
  {
    MonthsOrder(CycleDay(day, a), CycleDay(day, b));
  }
}
