/**
 What materialising one bill does to the occurrence table
 (src/modules/bills/bills.service.ts, materializeBillsInMutation).
 */
module BillMaterialization {
  import opened Wrappers
  import opened Calendar
  import opened Occurrences
  import opened BillSchedule
  import opened BillOccurrencesRepository
  import opened RecurringEngine

  datatype CardStatement = CardStatement(dueDate: Option<Day>, balance: Option<int>)

  /** Where a transfer bill pays to; `Missing` is an account the user no longer has. */
  datatype Destination = NotTransfer | Missing | Credit(card: CardStatement) | OtherAccount

  /** `cadence` is the override if there is one; `None` is irregular. */
  datatype Bill = Bill(
    id: nat,
    cadence: Option<Cadence>,
    nextExpected: Option<Day>,
    endDate: Option<Day>,
    avgAmount: int,
    destination: Destination)
  {
    /** Not skipped by one of the loop's `continue`s. */
    predicate Materializes() {
      && !destination.Missing?
      && (destination.Credit? ==> destination.card.dueDate.Some? && destination.card.balance.Some? && destination.card.balance.value > 0)
      && nextExpected.Some? && cadence.Some?
    }

    predicate Card() { destination.Credit? }

    function Amount(): int
      requires Materializes()
    {
      if Card() then destination.card.balance.value else avgAmount
    }
  }

  // ------------------------------------------------------------------ the dates

  /** How many steps a cursor at `a` can still take up to `b`. */
  function Gap(a: Day, b: Day): nat {
    if AtMost(a, b) then
      OrderIsDayOrder(a, b);
      DayNumber(b) - DayNumber(a) + 1
    else 0
  }

  lemma GapShrinks(a: Day, next: Day, b: Day)
    requires Before(a, next) && AtMost(a, b)
    ensures Gap(next, b) < Gap(a, b)
  {
    hide DayNumber;
    OrderIsDayOrder(a, next);
    OrderIsDayOrder(a, b);
    OrderIsDayOrder(next, b);
  }

  /** The cursor once it has reached today. */
  function CatchUp(cursor: Day, cadence: Cadence, today: Day): (r: Day)
    ensures !Before(r, today)
    ensures cadence.Monthly? ==> MonthIndex(cursor) <= MonthIndex(r)
    decreases Gap(cursor, today)
  {
    if Before(cursor, today) then
      var next := NextDateForCadence(cursor, cadence);
      GapShrinks(cursor, next, today);
      CatchUp(next, cadence, today)
    else cursor
  }

  /** A past date of this month is kept when its monthly row already exists. */
  predicate KeepsPast(rows: Rows, bill: nat, cursor: Day, cadence: Cadence, today: Day) {
    cadence.Monthly? && cursor.y == today.y && cursor.m == today.m && Holds(rows, bill, MonthKey(cursor.y, cursor.m))
  }

  function PastDates(rows: Rows, bill: nat, cursor: Day, cadence: Cadence, today: Day): seq<Day>
    decreases Gap(cursor, today)
  {
    if Before(cursor, today) then
      var next := NextDateForCadence(cursor, cadence);
      GapShrinks(cursor, next, today);
      (if KeepsPast(rows, bill, cursor, cadence, today) then [cursor] else []) + PastDates(rows, bill, next, cadence, today)
    else []
  }

  function FutureDates(cursor: Day, cadence: Cadence, horizon: Day): seq<Day>
    decreases Gap(cursor, horizon)
  {
    if AtMost(cursor, horizon) then
      var next := NextDateForCadence(cursor, cadence);
      GapShrinks(cursor, next, horizon);
      [cursor] + FutureDates(next, cadence, horizon)
    else []
  }

  function FirstCursor(nextExpected: Day, cadence: Cadence): Day {
    if cadence.Semimonthly? then NextDateForCadence(Shift(nextExpected, -1), cadence) else nextExpected
  }

  function Horizon(today: Day, months: int): Day {
    Utc(today.y, today.m + months, today.d)
  }

  /** The schedule before the end date is looked at; an issued card statement is one date. */
  function PlannedDates(rows: Rows, b: Bill, today: Day, months: int): seq<Day>
    requires b.Materializes()
  {
    if b.Card() then [b.destination.card.dueDate.value]
    else
      var cursor, cadence := FirstCursor(b.nextExpected.value, b.cadence.value), b.cadence.value;
      PastDates(rows, b.id, cursor, cadence, today) + FutureDates(CatchUp(cursor, cadence, today), cadence, Horizon(today, months))
  }

  /** Dates ascend, and monthly ones ascend by month. */
  ghost predicate Rising(dates: seq<Day>, cadence: Cadence) {
    forall i, j :: 0 <= i < j < |dates| ==> Follows(dates[i], dates[j], cadence)
  }

  ghost predicate Follows(a: Day, b: Day, cadence: Cadence) {
    Before(a, b) && (cadence.Monthly? ==> MonthIndex(a) < MonthIndex(b))
  }

  ghost predicate From(a: Day, b: Day, cadence: Cadence) {
    a == b || Follows(a, b, cadence)
  }

  lemma FromStep(cursor: Day, next: Day, rest: seq<Day>, cadence: Cadence)
    requires Follows(cursor, next, cadence) && Rising(rest, cadence)
    requires forall d :: d in rest ==> From(next, d, cadence)
    ensures Rising([cursor] + rest, cadence)
    ensures forall d :: d in rest ==> From(cursor, d, cadence)
  {
    forall d | d in rest
      ensures Follows(cursor, d, cadence)
    {
      assert From(next, d, cadence);
    }
    assert forall j :: 0 <= j < |rest| ==> rest[j] in rest;
  }

  lemma {:induction false} FutureRises(cursor: Day, cadence: Cadence, horizon: Day)
    ensures Rising(FutureDates(cursor, cadence, horizon), cadence)
    ensures forall d :: d in FutureDates(cursor, cadence, horizon) ==> From(cursor, d, cadence)
    decreases Gap(cursor, horizon)
  {
    if AtMost(cursor, horizon) {
      hide NextDateForCadence, Gap, Rising;
      var next := NextDateForCadence(cursor, cadence);
      GapShrinks(cursor, next, horizon);
      FutureRises(next, cadence, horizon);
      FromStep(cursor, next, FutureDates(next, cadence, horizon), cadence);
    }
  }

  lemma {:induction false} PastRises(rows: Rows, bill: nat, cursor: Day, cadence: Cadence, today: Day)
    ensures Rising(PastDates(rows, bill, cursor, cadence, today), cadence)
    ensures forall d :: d in PastDates(rows, bill, cursor, cadence, today) ==>
              From(cursor, d, cadence) && Follows(d, CatchUp(cursor, cadence, today), cadence)
    ensures From(cursor, CatchUp(cursor, cadence, today), cadence)
    decreases Gap(cursor, today)
  {
    if Before(cursor, today) {
      hide NextDateForCadence, Gap, KeepsPast, Rising;
      var next := NextDateForCadence(cursor, cadence);
      GapShrinks(cursor, next, today);
      PastRises(rows, bill, next, cadence, today);
      var rest := PastDates(rows, bill, next, cadence, today);
      FromStep(cursor, next, rest, cadence);
      assert [] + rest == rest;
      assert Follows(cursor, CatchUp(next, cadence, today), cadence);
    }
  }

  lemma RisingIsSchedule(dates: seq<Day>, cadence: Cadence)
    requires Rising(dates, cadence)
    ensures Schedule(dates, cadence)
  {
    forall i, j | 0 <= i < j < |dates|
      ensures Before(dates[i], dates[j]) && ScheduleKey(cadence, dates[i]) != ScheduleKey(cadence, dates[j])
    {
      assert Follows(dates[i], dates[j], cadence);
    }
  }

  /** Whatever the bill, the dates ascend and each gets its own key. */
  lemma PlannedDatesAreSchedule(rows: Rows, b: Bill, today: Day, months: int)
    requires b.Materializes()
    ensures Schedule(PlannedDates(rows, b, today, months), b.cadence.value)
  {
    hide CatchUp, PastDates, FutureDates, Horizon, FirstCursor;
    if !b.Card() {
      var cursor, cadence, horizon := FirstCursor(b.nextExpected.value, b.cadence.value), b.cadence.value, Horizon(today, months);
      var start := CatchUp(cursor, cadence, today);
      PastRises(rows, b.id, cursor, cadence, today);
      FutureRises(start, cadence, horizon);
      var past, future := PastDates(rows, b.id, cursor, cadence, today), FutureDates(start, cadence, horizon);
      forall i, j | 0 <= i < |past| && 0 <= j < |future|
        ensures Follows(past[i], future[j], cadence)
      {
        assert past[i] in past && future[j] in future;
      }
      RisingIsSchedule(past + future, cadence);
    }
  }

  // ------------------------------------------------------------------ one bill

  /** Untouched future rows off the new date-keyed schedule: the schedule's phase has moved. */
  predicate PhaseMoved(rows: Rows, b: Bill, today: Day, dates: seq<Day>)
    requires b.Materializes()
  {
    && !b.cadence.value.Monthly? && !b.Card()
    && exists i :: i in rows && rows[i].bill == b.id && rows[i].status == Upcoming && !Before(rows[i].dueDate, today)
                   && rows[i].dateOverride == None && rows[i].amountOverride == None && rows[i].linkedTxn == None
                   && rows[i].markedPaidAt == None && rows[i].dueDate !in dates
  }

  predicate Realigns(rows: Rows, b: Bill, today: Day, dates: seq<Day>, reschedule: bool)
    requires b.Materializes()
  {
    reschedule || PhaseMoved(rows, b, today, dates) || exists i :: i in rows && rows[i].bill == b.id && rows[i].key.Retired?
  }

  predicate Ended(b: Bill, date: Day) {
    b.endDate.Some? && Before(b.endDate.value, date)
  }

  function WithinEnd(b: Bill, dates: seq<Day>): seq<Day> {
    Filter(dates, (d: Day) => !Ended(b, d))
  }

  function NotPast(dates: seq<Day>, today: Day): seq<Day> {
    Filter(dates, (d: Day) => !Before(d, today))
  }

  /** The dates a realignment may fill, in the table after retiring. */
  function RealignDates(retired: Rows, b: Bill, today: Day, dates: seq<Day>): seq<Day>
    requires b.Materializes()
  {
    SafeScheduleDates(retired, b.id, b.cadence.value, today, NotPast(WithinEnd(b, dates), today))
  }

  predicate RetiredRowOn(retired: Rows, bill: nat, d: Day) {
    exists i :: i in retired && retired[i].bill == bill && retired[i].dueDate == d && retired[i].key.Retired?
  }

  /** Those of them a retired row already stands on. */
  function Reusable(retired: Rows, b: Bill, dates: seq<Day>): seq<Day> {
    Filter(dates, (d: Day) => RetiredRowOn(retired, b.id, d))
  }

  function ReviveAll(rows: Rows, bill: nat, dates: seq<Day>): Rows {
    if dates == [] then rows
    else ReviveCancelled(ReviveAll(rows, bill, dates[..|dates| - 1]), bill, dates[|dates| - 1].y, dates[|dates| - 1].m)
  }

  /** The common end of both branches: revive for a card, then insert. */
  function Fill(l: Ledger, b: Bill, dates: seq<Day>): Option<Ledger>
    requires b.Materializes()
  {
    if dates == [] then Some(l)
    else
      var revived := if b.Card() then l.(rows := ReviveAll(l.rows, b.id, dates)) else l;
      InsertOccurrences(revived, b.id, b.cadence.value, dates, b.Amount())
  }

  function Realign(l: Ledger, b: Bill, today: Day, dates: seq<Day>): Option<Ledger>
    requires b.Materializes()
  {
    var retired := RetireFutureSchedule(l.rows, b.id, today);
    var allowed := RealignDates(retired, b, today, dates);
    match AdoptDates(retired, b.id, b.cadence.value, Reusable(retired, b, allowed), b.avgAmount)
    case None => None
    case Some(adopted) => Fill(l.(rows := adopted), b, allowed)
  }

  function Ordinary(l: Ledger, b: Bill, dates: seq<Day>): Option<Ledger>
    requires b.Materializes()
  {
    Fill(l, b, NonCollidingScheduleDates(l.rows, b.id, b.cadence.value, WithinEnd(b, dates)))
  }

  /** One pass of the loop over bills; `None` is a unique-index violation, which rolls everything back. */
  function MaterializeBill(l: Ledger, b: Bill, today: Day, months: int, reschedule: bool): Option<Ledger> {
    if !b.Materializes() then Some(l)
    else
      var dates := PlannedDates(l.rows, b, today, months);
      if Realigns(l.rows, b, today, dates, reschedule) then Realign(l, b, today, dates) else Ordinary(l, b, dates)
  }
}
