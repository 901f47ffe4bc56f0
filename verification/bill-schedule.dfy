/** Which dates of a new schedule may be filled (src/modules/bills/bill-schedule.ts). */
module BillSchedule {
  import opened Wrappers
  import opened Calendar
  import opened Occurrences
  import RecurringEngine

  type Cadence = RecurringEngine.Cadence

  function ScheduleKey(cadence: Cadence, date: Day): Key {
    if cadence.Monthly? then MonthKey(date.y, date.m) else DateKey(date)
  }

  /** A row a realignment must not disturb. */
  predicate Protected(r: Occurrence, today: Day) {
    || Before(r.EffectiveDate(), today)
    || r.dateOverride.Some?
    || r.amountOverride.Some?
    || r.linkedTxn.Some?
    || r.markedPaidAt.Some?
    || r.status !in {Upcoming, Cancelled}
    || (r.status == Cancelled && !r.key.Retired?)
  }

  predicate Safe(rows: Rows, bill: nat, cadence: Cadence, today: Day, date: Day) {
    !exists i :: i in rows && rows[i].bill == bill && Protected(rows[i], today)
                 && (rows[i].key == ScheduleKey(cadence, date) || rows[i].dueDate == date || rows[i].EffectiveDate() == date)
  }

  predicate NonColliding(rows: Rows, bill: nat, cadence: Cadence, date: Day) {
    !exists i :: i in rows && rows[i].bill == bill && rows[i].key != ScheduleKey(cadence, date)
                 && (rows[i].dueDate == date || rows[i].dateOverride == Some(date))
  }

  function DateSet(dates: seq<Day>): set<Day> {
    set d | d in dates
  }

  /** `Array.filter`. */
  function Filter(dates: seq<Day>, p: Day -> bool): (r: seq<Day>)
    ensures forall d :: d in r <==> d in dates && p(d)
  {
    if dates == [] then []
    else
      var rest := Filter(dates[..|dates| - 1], p);
      if p(dates[|dates| - 1]) then rest + [dates[|dates| - 1]] else rest
  }

  /** Never a second payment in a protected cycle or on a protected date. */
  function SafeScheduleDates(rows: Rows, bill: nat, cadence: Cadence, today: Day, dates: seq<Day>): seq<Day> {
    Filter(dates, (d: Day) => Safe(rows, bill, cadence, today, d))
  }

  /** A different key cannot insert on a date an older cycle already holds. */
  function NonCollidingScheduleDates(rows: Rows, bill: nat, cadence: Cadence, dates: seq<Day>): seq<Day> {
    Filter(dates, (d: Day) => NonColliding(rows, bill, cadence, d))
  }

  /** Later entries are later dates, with different keys. */
  ghost predicate Schedule(dates: seq<Day>, cadence: Cadence) {
    forall i, j :: 0 <= i < j < |dates| ==>
                     Before(dates[i], dates[j]) && ScheduleKey(cadence, dates[i]) != ScheduleKey(cadence, dates[j])
  }

  lemma {:induction false} FilterKeepsSchedule(dates: seq<Day>, p: Day -> bool, cadence: Cadence)
    requires Schedule(dates, cadence)
    ensures Schedule(Filter(dates, p), cadence)
  {
    if dates != [] {
      var front, last := dates[..|dates| - 1], dates[|dates| - 1];
      FilterKeepsSchedule(front, p, cadence);
      var rest := Filter(front, p);
      forall i | 0 <= i < |rest|
        ensures Before(rest[i], last) && ScheduleKey(cadence, rest[i]) != ScheduleKey(cadence, last)
      {
        assert rest[i] in front;
      }
    }
  }

  lemma {:induction false} FilterAll(dates: seq<Day>, p: Day -> bool)
    requires forall d :: d in dates ==> p(d)
    ensures Filter(dates, p) == dates
  {
    if dates != [] { FilterAll(dates[..|dates| - 1], p); }
  }

  lemma {:induction false} FilterSame(dates: seq<Day>, p: Day -> bool, q: Day -> bool)
    requires forall d :: d in dates ==> p(d) == q(d)
    ensures Filter(dates, p) == Filter(dates, q)
  {
    if dates != [] { FilterSame(dates[..|dates| - 1], p, q); }
  }

  /** The dates of a schedule as a set: different dates have different keys. */
  lemma ScheduleSet(dates: seq<Day>, cadence: Cadence)
    requires Schedule(dates, cadence) && dates != []
    ensures DateSet(dates) == DateSet(dates[..|dates| - 1]) + {dates[|dates| - 1]}
    ensures forall d, e :: d in DateSet(dates) && e in DateSet(dates) && d != e ==> ScheduleKey(cadence, d) != ScheduleKey(cadence, e)
    ensures forall d :: d in DateSet(dates) ==> d in dates
    ensures Schedule(dates[..|dates| - 1], cadence)
  {
    hide ScheduleKey;
    assert dates == dates[..|dates| - 1] + [dates[|dates| - 1]];
    forall d, e | d in DateSet(dates) && e in DateSet(dates) && d != e
      ensures ScheduleKey(cadence, d) != ScheduleKey(cadence, e)
    {
      var i :| 0 <= i < |dates| && dates[i] == d;
      var j :| 0 <= j < |dates| && dates[j] == e;
      if i < j { assert Before(dates[i], dates[j]); } else { assert Before(dates[j], dates[i]); }
    }
  }
}
