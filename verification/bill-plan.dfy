/** Exactly which dates a bill's plan holds (src/modules/bills/bills.service.ts and recurring-engine.ts). */
module BillPlan {
  import opened Wrappers
  import opened Calendar
  import opened Occurrences
  import opened BillOccurrencesRepository
  import opened BillMaterialization
  import opened RecurringEngine
  import BusinessDays

  // --------------------------------------------------------------- the dates of a schedule

  ghost predicate Steps(path: seq<Day>, cadence: Cadence) {
    path != [] && forall i :: 0 <= i < |path| - 1 ==> OneApart(path[i], path[i + 1], cadence)
  }

  /** The schedule that starts on `anchor` falls on `d`, some number of cadence steps later. */
  ghost predicate OnSchedule(anchor: Day, d: Day, cadence: Cadence) {
    exists path :: Steps(path, cadence) && path[0] == anchor && path[|path| - 1] == d
  }

  lemma StartsAtAnchor(d: Day, cadence: Cadence)
    ensures OnSchedule(d, d, cadence)
  {
    assert Steps([d], cadence);
  }

  /** A date of the schedule is its start, or a date of the schedule that starts one step later. */
  lemma OnOrLater(cursor: Day, d: Day, cadence: Cadence)
    ensures OnSchedule(cursor, d, cadence) <==> d == cursor || OnSchedule(NextDateForCadence(cursor, cadence), d, cadence)
  {
    var next := NextDateForCadence(cursor, cadence);
    NextIsOneApart(cursor, cadence);
    hide OneApart, NextDateForCadence;
    if OnSchedule(cursor, d, cadence) && d != cursor {
      var path :| Steps(path, cadence) && path[0] == cursor && path[|path| - 1] == d;
      OneApartIsNext(path[0], path[1], cadence);
      assert Steps(path[1..], cadence);
    }
    if OnSchedule(next, d, cadence) {
      var path :| Steps(path, cadence) && path[0] == next && path[|path| - 1] == d;
      assert Steps([cursor] + path, cadence);
    }
    StartsAtAnchor(d, cadence);
  }

  lemma {:induction false} NeverBefore(path: seq<Day>, cadence: Cadence)
    requires Steps(path, cadence)
    ensures AtMost(path[0], path[|path| - 1])
  {
    hide OneApart, NextDateForCadence;
    if |path| > 1 {
      OneApartIsNext(path[0], path[1], cadence);
      NeverBefore(path[1..], cadence);
    }
  }

  lemma NotBeforeAnchor(anchor: Day, d: Day, cadence: Cadence)
    requires OnSchedule(anchor, d, cadence)
    ensures AtMost(anchor, d)
  {
    hide OneApart;
    var path :| Steps(path, cadence) && path[0] == anchor && path[|path| - 1] == d;
    NeverBefore(path, cadence);
  }

  /** How many days a cadence that counts days moves by. */
  function DaysOf(cadence: Cadence): int {
    match cadence
    case Daily => 1
    case Weekly => 7
    case Biweekly => 14
    case _ => 0
  }

  /** Such a schedule falls on every so-manieth day from its anchor. */
  lemma {:induction false} EverySoManyDays(anchor: Day, d: Day, cadence: Cadence, n: nat)
    requires DaysOf(cadence) > 0 && DayNumber(d) == DayNumber(anchor) + n * DaysOf(cadence)
    ensures OnSchedule(anchor, d, cadence)
    decreases n
  {
    if n == 0 {
      OrderIsDayOrder(anchor, d);
      StartsAtAnchor(d, cadence);
    } else {
      var next := NextDateForCadence(anchor, cadence);
      NextIsOneApart(anchor, cadence);
      OnOrLater(anchor, d, cadence);
      hide NextDateForCadence, OnSchedule, DayNumber;
      EverySoManyDays(next, d, cadence, n - 1);
    }
  }

  lemma {:induction false} OnlySoManyDays(path: seq<Day>, cadence: Cadence)
    requires DaysOf(cadence) > 0 && Steps(path, cadence)
    ensures DayNumber(path[|path| - 1]) == DayNumber(path[0]) + (|path| - 1) * DaysOf(cadence)
  {
    hide DayNumber;
    if |path| > 1 { OnlySoManyDays(path[1..], cadence); }
  }

  lemma ScheduleInDays(anchor: Day, d: Day, cadence: Cadence)
    requires DaysOf(cadence) > 0
    ensures OnSchedule(anchor, d, cadence) <==> exists n: nat :: DayNumber(d) == DayNumber(anchor) + n * DaysOf(cadence)
  {
    hide DayNumber, OneApart;
    if OnSchedule(anchor, d, cadence) {
      var path :| Steps(path, cadence) && path[0] == anchor && path[|path| - 1] == d;
      OnlySoManyDays(path, cadence);
      var n: nat := |path| - 1;
      assert DayNumber(d) == DayNumber(anchor) + n * DaysOf(cadence);
    }
    if n: nat :| DayNumber(d) == DayNumber(anchor) + n * DaysOf(cadence) { EverySoManyDays(anchor, d, cadence, n); }
  }

  // --------------------------------------------------------------- the plan

  /** Where a bill's schedule starts: its next expected date, for semi-monthly pay the first pay date not before it. */
  ghost predicate AnchorOf(b: Bill, anchor: Day)
    requires b.Materializes()
  {
    var expected := b.nextExpected.value;
    if b.cadence.value.Semimonthly? then
      && AtMost(expected, anchor)
      && (exists h: BusinessDays.PayHalf :: anchor == BusinessDays.PayDate(h))
      && (forall h: BusinessDays.PayHalf :: AtMost(expected, BusinessDays.PayDate(h)) ==> AtMost(anchor, BusinessDays.PayDate(h)))
    else anchor == expected
  }

  lemma FirstCursorIsAnchor(b: Bill)
    requires b.Materializes()
    ensures AnchorOf(b, FirstCursor(b.nextExpected.value, b.cadence.value))
  {
    var expected := b.nextExpected.value;
    if b.cadence.value.Semimonthly? {
      var before: Day := Shift(expected, -1);
      DayBefore(expected);
      NextIsOneApart(before, Semimonthly);
      hide NextDateForCadence, Shift;
      var first := NextDateForCadence(before, Semimonthly);
      assert FirstPayDateAfter(before, first);
      forall h: BusinessDays.PayHalf | AtMost(expected, BusinessDays.PayDate(h))
        ensures AtMost(first, BusinessDays.PayDate(h))
      {
        AfterDayBefore(expected, BusinessDays.PayDate(h));
      }
      AfterDayBefore(expected, first);
    }
  }

  lemma DayBefore(t: Day)
    ensures DayNumber(Shift(t, -1)) == DayNumber(t) - 1
  {
    ShiftMovesDayNumber(t, -1);
  }

  lemma AfterDayBefore(t: Day, d: Day)
    ensures Before(Shift(t, -1), d) <==> AtMost(t, d)
  {
    DayBefore(t);
    OrderIsDayOrder(Shift(t, -1), d);
    OrderIsDayOrder(t, d);
  }

  lemma OneAnchor(b: Bill, anchor: Day)
    requires b.Materializes() && AnchorOf(b, anchor)
    ensures anchor == FirstCursor(b.nextExpected.value, b.cadence.value)
  {
    FirstCursorIsAnchor(b);
    hide FirstCursor;
  }

  /** The first of the month with this number, counted from month 0 of year 0. */
  function FirstOf(index: int): Day {
    Date(index / 12, index % 12 + 1, 1)
  }

  /** Not after the same day of the month so many months ahead, where days past a month's end carry over. */
  predicate WithinHorizon(today: Day, months: int, d: Day) {
    DayNumber(d) <= DayNumber(FirstOf(12 * today.y + today.m - 1 + months)) + today.d - 1
  }

  lemma HorizonIs(today: Day, months: int, d: Day)
    ensures AtMost(d, Horizon(today, months)) <==> WithinHorizon(today, months, d)
  {
    HorizonShifts(today, months);
    hide Horizon, Shift, DayNumber, FirstOf;
    ShiftMovesDayNumber(FirstOf(12 * today.y + today.m - 1 + months), today.d - 1);
    OrderIsDayOrder(d, Horizon(today, months));
  }

  lemma HorizonShifts(today: Day, months: int)
    ensures Horizon(today, months) == Shift(FirstOf(12 * today.y + today.m - 1 + months), today.d - 1)
  {
    hide Shift;
  }

  lemma {:induction false} FutureIff(cursor: Day, cadence: Cadence, horizon: Day, d: Day)
    ensures d in FutureDates(cursor, cadence, horizon) <==> OnSchedule(cursor, d, cadence) && AtMost(d, horizon)
    decreases Gap(cursor, horizon)
  {
    hide OnSchedule, NextDateForCadence, Gap;
    if AtMost(cursor, horizon) {
      var next := NextDateForCadence(cursor, cadence);
      GapShrinks(cursor, next, horizon);
      FutureIff(next, cadence, horizon, d);
      OnOrLater(cursor, d, cadence);
    } else if OnSchedule(cursor, d, cadence) {
      NotBeforeAnchor(cursor, d, cadence);
    }
  }

  lemma {:induction false} CatchUpIff(cursor: Day, cadence: Cadence, today: Day, d: Day)
    ensures OnSchedule(CatchUp(cursor, cadence, today), d, cadence) <==> OnSchedule(cursor, d, cadence) && AtMost(today, d)
    decreases Gap(cursor, today)
  {
    hide OnSchedule, NextDateForCadence, Gap;
    if Before(cursor, today) {
      var next := NextDateForCadence(cursor, cadence);
      GapShrinks(cursor, next, today);
      CatchUpIff(next, cadence, today, d);
      OnOrLater(cursor, d, cadence);
    } else if OnSchedule(cursor, d, cadence) {
      NotBeforeAnchor(cursor, d, cadence);
    }
  }

  /** A past date of this month that the plan keeps, because its monthly row is already there. */
  predicate Kept(rows: Rows, b: Bill, today: Day, d: Day)
    requires b.Materializes()
  {
    && b.cadence.value.Monthly? && d.y == today.y && d.m == today.m
    && exists i :: i in rows && rows[i].bill == b.id && rows[i].key == MonthKey(today.y, today.m)
  }

  lemma {:induction false} PastIff(rows: Rows, b: Bill, cursor: Day, today: Day, d: Day)
    requires b.Materializes()
    ensures d in PastDates(rows, b.id, cursor, b.cadence.value, today) <==>
            OnSchedule(cursor, d, b.cadence.value) && Before(d, today) && Kept(rows, b, today, d)
    decreases Gap(cursor, today)
  {
    var cadence := b.cadence.value;
    if Before(cursor, today) {
      var next := NextDateForCadence(cursor, cadence);
      assert KeepsPast(rows, b.id, cursor, cadence, today) <==> Kept(rows, b, today, cursor);
      hide OnSchedule, NextDateForCadence, Gap, KeepsPast, Kept;
      GapShrinks(cursor, next, today);
      PastIff(rows, b, next, today, d);
      OnOrLater(cursor, d, cadence);
      if KeepsPast(rows, b.id, cursor, cadence, today) {
        assert d in [cursor] + PastDates(rows, b.id, next, cadence, today) <==> d == cursor || d in PastDates(rows, b.id, next, cadence, today);
      }
    } else if OnSchedule(cursor, d, cadence) {
      NotBeforeAnchor(cursor, d, cadence);
    }
  }

  /**
   The plan of a bill that is not a card's holds exactly the dates of its schedule from today to the horizon, and the
   past ones of this month that are kept. With `PlannedDatesAreSchedule` it holds them in order, each once.
   */
  lemma PlannedIff(rows: Rows, b: Bill, today: Day, months: int, anchor: Day, d: Day)
    requires b.Materializes() && !b.Card() && AnchorOf(b, anchor)
    ensures d in PlannedDates(rows, b, today, months) <==>
            && OnSchedule(anchor, d, b.cadence.value)
            && if AtMost(today, d) then WithinHorizon(today, months, d) else Kept(rows, b, today, d)
  {
    var cadence, horizon := b.cadence.value, Horizon(today, months);
    OneAnchor(b, anchor);
    var start := CatchUp(anchor, cadence, today);
    hide AnchorOf, OnSchedule, FirstCursor, CatchUp, PastDates, FutureDates, Horizon, Kept, WithinHorizon;
    PastIff(rows, b, anchor, today, d);
    FutureIff(start, cadence, horizon, d);
    CatchUpIff(anchor, cadence, today, d);
    HorizonIs(today, months, d);
  }

  lemma {:induction false} FutureSteps(cursor: Day, cadence: Cadence, horizon: Day)
    ensures var dates := FutureDates(cursor, cadence, horizon);
            dates == [] || (dates[0] == cursor && Steps(dates, cadence) && Before(horizon, NextDateForCadence(dates[|dates| - 1], cadence)))
    decreases Gap(cursor, horizon)
  {
    if AtMost(cursor, horizon) {
      hide NextDateForCadence, Gap, OneApart, Steps;
      var next := NextDateForCadence(cursor, cadence);
      NextIsOneApart(cursor, cadence);
      GapShrinks(cursor, next, horizon);
      FutureSteps(next, cadence, horizon);
      OneStepMore(cursor, FutureDates(next, cadence, horizon), cadence);
    }
  }

  lemma OneStepMore(cursor: Day, rest: seq<Day>, cadence: Cadence)
    requires rest == [] || (Steps(rest, cadence) && OneApart(cursor, rest[0], cadence))
    ensures Steps([cursor] + rest, cadence)
    ensures ([cursor] + rest)[|rest|] == if rest == [] then cursor else rest[|rest| - 1]
  {
    hide OneApart;
  }

  /** From today on the planned dates follow each other one cadence step apart, up to the last one within the horizon. */
  lemma PlanSteps(rows: Rows, b: Bill, today: Day, months: int, i: nat)
    requires b.Materializes() && !b.Card()
    requires i < |PlannedDates(rows, b, today, months)| && AtMost(today, PlannedDates(rows, b, today, months)[i])
    ensures var dates := PlannedDates(rows, b, today, months);
            if i + 1 < |dates| then OneApart(dates[i], dates[i + 1], b.cadence.value)
            else forall d :: OneApart(dates[i], d, b.cadence.value) ==> !WithinHorizon(today, months, d)
  {
    var cadence, cursor, horizon := b.cadence.value, FirstCursor(b.nextExpected.value, b.cadence.value), Horizon(today, months);
    var past, future := PastDates(rows, b.id, cursor, cadence, today), FutureDates(CatchUp(cursor, cadence, today), cadence, horizon);
    FutureSteps(CatchUp(cursor, cadence, today), cadence, horizon);
    if i < |past| {
      assert past[i] in past;
      PastIff(rows, b, cursor, today, past[i]);
    } else {
      hide PastDates, FutureDates, CatchUp, Horizon, FirstCursor, OneApart, NextDateForCadence, WithinHorizon;
      var dates := past + future;
      assert dates[i] == future[i - |past|];
      if i + 1 == |dates| {
        forall d | OneApart(dates[i], d, cadence)
          ensures !WithinHorizon(today, months, d)
        {
          OneApartIsNext(dates[i], d, cadence);
          HorizonIs(today, months, d);
        }
      }
    }
  }

  /** A card's plan is the due date of its statement. */
  lemma CardPlanned(rows: Rows, b: Bill, today: Day, months: int, due: Day)
    requires b.Materializes() && b.destination.Credit? && b.destination.card.dueDate == Some(due)
    ensures PlannedDates(rows, b, today, months) == [due]
  {
  }
}
