/** Cadences and their next dates (src/modules/bills/recurring-engine.ts). */
module RecurringEngine {
  import opened Calendar
  import BusinessDays

  type Day = BusinessDays.Day

  /** Every cadence with a computable next date. */
  datatype Cadence = Daily | Weekly | Biweekly | Semimonthly | Monthly | Quarterly | Annual

  function MonthIndex(t: Date): int {
    12 * t.y + t.m - 1
  }

  /** The same day `months` later, moved back to the month's last day when short. */
  function AddCalendarMonths(t: Day, months: int): (r: Day)
    ensures MonthIndex(r) == MonthIndex(t) + months
    ensures r.d == t.d || (r.d < t.d && r.d == DaysInMonth(r.y, r.m))
  {
    var index := t.m - 1 + months;
    var year, month := t.y + index / 12, index % 12 + 1;
    var lastDay := DaysInMonth(year, month);
    Date(year, month, if t.d <= lastDay then t.d else lastDay)
  }

  /** `b` is the day of the month of `a`, `months` later, moved back to the month's last day when short. */
  predicate MonthsApart(a: Day, b: Day, months: int) {
    MonthIndex(b) == MonthIndex(a) + months && b.d == if a.d <= DaysInMonth(b.y, b.m) then a.d else DaysInMonth(b.y, b.m)
  }

  /** `b` is the first pay date after `a`. */
  ghost predicate FirstPayDateAfter(a: Day, b: Day) {
    && Before(a, b)
    && (exists h: BusinessDays.PayHalf :: b == BusinessDays.PayDate(h))
    && (forall h: BusinessDays.PayHalf :: Before(a, BusinessDays.PayDate(h)) ==> AtMost(b, BusinessDays.PayDate(h)))
  }

  /** `b` is one step of the cadence after `a`. */
  ghost predicate OneApart(a: Day, b: Day, cadence: Cadence) {
    match cadence
    case Daily => DayNumber(b) == DayNumber(a) + 1
    case Weekly => DayNumber(b) == DayNumber(a) + 7
    case Biweekly => DayNumber(b) == DayNumber(a) + 14
    case Semimonthly => FirstPayDateAfter(a, b)
    case Monthly => MonthsApart(a, b, 1)
    case Quarterly => MonthsApart(a, b, 3)
    case Annual => MonthsApart(a, b, 12)
  }

  function NextDateForCadence(t: Day, cadence: Cadence): (r: Day)
    ensures Before(t, r)
    ensures cadence.Monthly? ==> MonthIndex(r) == MonthIndex(t) + 1
  {
    match cadence
    case Semimonthly => BusinessDays.NextPayDate(t)
    case Daily => Later(t, 1)
    case Weekly => Later(t, 7)
    case Biweekly => Later(t, 14)
    case Monthly => AddCalendarMonths(t, 1)
    case Quarterly => AddCalendarMonths(t, 3)
    case Annual => AddCalendarMonths(t, 12)
  }

  function Later(t: Day, n: int): (r: Day)
    requires n > 0
    ensures Before(t, r) && DayNumber(r) == DayNumber(t) + n
  {
    ShiftMovesDayNumber(t, n);
    OrderIsDayOrder(t, Shift(t, n));
    Shift(t, n)
  }

  /** The next date is one step of the cadence later: so many days or months, or the first pay date after. */
  lemma NextIsOneApart(t: Day, cadence: Cadence)
    ensures OneApart(t, NextDateForCadence(t, cadence), cadence)
  {
    if cadence.Semimonthly? { NextPayDateIsFirst(t); }
    hide DayNumber;
  }

  lemma NextPayDateIsFirst(t: Day)
    ensures FirstPayDateAfter(t, BusinessDays.NextPayDate(t))
  {
    var next := BusinessDays.NextHalf(t);
    forall h: BusinessDays.PayHalf | Before(t, BusinessDays.PayDate(h))
      ensures AtMost(BusinessDays.NextPayDate(t), BusinessDays.PayDate(h))
    {
      BusinessDays.NextHalfIsLeast(t, h);
      BusinessDays.PayDatesOrdered(next, h);
    }
    assert BusinessDays.NextPayDate(t) == BusinessDays.PayDate(next);
  }

  /** And it is the only such date. */
  lemma OneApartIsNext(a: Day, b: Day, cadence: Cadence)
    requires OneApart(a, b, cadence)
    ensures b == NextDateForCadence(a, cadence)
  {
    var next := NextDateForCadence(a, cadence);
    NextIsOneApart(a, cadence);
    hide NextDateForCadence, DayNumber;
    match cadence {
      case Daily => OrderIsDayOrder(b, next);
      case Weekly => OrderIsDayOrder(b, next);
      case Biweekly => OrderIsDayOrder(b, next);
      case _ =>
    }
  }
}
