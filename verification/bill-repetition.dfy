/** Exactly when a second pass over one bill on the same day changes nothing (src/modules/bills/bills.service.ts). */
module BillRepetition {
  import opened Wrappers
  import opened Calendar
  import opened Occurrences
  import opened BillSchedule
  import opened BillOccurrencesRepository
  import opened BillMaterialization
  import opened BillMaterializationProofs
  import opened BillRealignment
  import opened RecurringEngine

  // --------------------------------------------------------------- the plan of the second pass

  /** A realignment drops past dates, so it does not matter which of them the plan kept. */
  lemma RealignIgnoresPast(l: Ledger, b: Bill, today: Day, past: seq<Day>, other: seq<Day>, future: seq<Day>)
    requires b.Materializes()
    requires forall d :: d in past || d in other ==> Before(d, today)
    ensures Realign(l, b, today, past + future) == Realign(l, b, today, other + future)
  {
    PastFiltered(b, today, past, future);
    PastFiltered(b, today, other, future);
  }

  lemma {:induction false} PastFiltered(b: Bill, today: Day, past: seq<Day>, future: seq<Day>)
    requires forall d :: d in past ==> Before(d, today)
    ensures NotPast(WithinEnd(b, past + future), today) == NotPast(WithinEnd(b, future), today)
    decreases |future|
  {
    if future == [] {
      assert past + future == past;
      NoneKept(WithinEnd(b, past), (d: Day) => !Before(d, today));
    } else {
      var front, last := future[..|future| - 1], future[|future| - 1];
      assert past + future == (past + front) + [last];
      PastFiltered(b, today, past, front);
    }
  }

  lemma {:induction false} NoneKept(dates: seq<Day>, p: Day -> bool)
    requires forall d :: d in dates ==> !p(d)
    ensures Filter(dates, p) == []
  {
    if dates != [] { NoneKept(dates[..|dates| - 1], p); }
  }

  lemma {:induction false} PastBeforeToday(rows: Rows, bill: nat, cursor: Day, cadence: Cadence, today: Day)
    ensures forall d :: d in PastDates(rows, bill, cursor, cadence, today) ==> Before(d, today)
    ensures forall d :: d in PastDates(rows, bill, cursor, cadence, today) ==>
              cadence.Monthly? && d.y == today.y && d.m == today.m && Holds(rows, bill, MonthKey(today.y, today.m))
    decreases Gap(cursor, today)
  {
    if Before(cursor, today) {
      hide NextDateForCadence, Gap, Holds;
      var next := NextDateForCadence(cursor, cadence);
      GapShrinks(cursor, next, today);
      PastBeforeToday(rows, bill, next, cadence, today);
    }
  }

  lemma {:induction false} PastDatesSame(rows: Rows, other: Rows, bill: nat, cursor: Day, cadence: Cadence, today: Day)
    requires Holds(rows, bill, MonthKey(today.y, today.m)) == Holds(other, bill, MonthKey(today.y, today.m))
    ensures PastDates(rows, bill, cursor, cadence, today) == PastDates(other, bill, cursor, cadence, today)
    decreases Gap(cursor, today)
  {
    if Before(cursor, today) {
      hide NextDateForCadence, Gap, Holds;
      var next := NextDateForCadence(cursor, cadence);
      GapShrinks(cursor, next, today);
      PastDatesSame(rows, other, bill, next, cadence, today);
    }
  }

  lemma NoMembers(dates: seq<Day>)
    requires forall d :: d !in dates
    ensures dates == []
  {
    if dates != [] { FirstMember(dates); }
  }

  lemma FirstMember(dates: seq<Day>)
    requires dates != []
    ensures dates[0] in dates
  {
  }

  lemma LaterMonth(c: Day, start: Day, d: Day, cadence: Cadence)
    requires cadence.Monthly? && Follows(c, start, cadence) && From(start, d, cadence)
    ensures ScheduleKey(cadence, d) != MonthKey(c.y, c.m)
  {
  }

  /** When nothing held this month's key before and a planned date has it, the plan starts after all past dates of the month. */
  lemma NewMonthIsAhead(rows: Rows, other: Rows, b: Bill, today: Day, months: int, d: Day)
    requires b.Materializes() && !b.Card() && !Holds(rows, b.id, MonthKey(today.y, today.m))
    requires d in PlannedDates(rows, b, today, months) && ScheduleKey(b.cadence.value, d) == MonthKey(today.y, today.m)
    ensures PlannedDates(other, b, today, months) == PlannedDates(rows, b, today, months)
  {
    var cursor, cadence := FirstCursor(b.nextExpected.value, b.cadence.value), b.cadence.value;
    var start := CatchUp(cursor, cadence, today);
    var past, pastOther := PastDates(rows, b.id, cursor, cadence, today), PastDates(other, b.id, cursor, cadence, today);
    PastBeforeToday(rows, b.id, cursor, cadence, today);
    PastBeforeToday(other, b.id, cursor, cadence, today);
    PastRises(other, b.id, cursor, cadence, today);
    FutureRises(start, cadence, Horizon(today, months));
    hide CatchUp, PastDates, FutureDates, Horizon, FirstCursor, Holds, Rising, From;
    NoMembers(past);
    assert d in FutureDates(start, cadence, Horizon(today, months));
    if pastOther != [] {
      assert pastOther[0] in pastOther;
      LaterMonth(pastOther[0], start, d, cadence);
    }
  }

  /** Only a monthly plan looks at the table, and only at this month's key. */
  lemma SamePlan(rows: Rows, other: Rows, b: Bill, today: Day, months: int)
    requires b.Materializes()
    requires b.cadence.value.Monthly? ==> Holds(rows, b.id, MonthKey(today.y, today.m)) == Holds(other, b.id, MonthKey(today.y, today.m))
    ensures PlannedDates(other, b, today, months) == PlannedDates(rows, b, today, months)
  {
    if !b.Card() {
      var cursor, cadence := FirstCursor(b.nextExpected.value, b.cadence.value), b.cadence.value;
      if cadence.Monthly? {
        PastDatesSame(rows, other, b.id, cursor, cadence, today);
      } else {
        PastBeforeToday(rows, b.id, cursor, cadence, today);
        PastBeforeToday(other, b.id, cursor, cadence, today);
        hide PastDates;
        NoMembers(PastDates(rows, b.id, cursor, cadence, today));
        NoMembers(PastDates(other, b.id, cursor, cadence, today));
      }
    }
  }

  // --------------------------------------------------------------- an ordinary pass and the next

  /** An ordinary pass does not create the row that would make a past date of this month be kept. */
  lemma PlanIsStable(l: Ledger, once: Ledger, b: Bill, today: Day, months: int, allowed: seq<Day>)
    requires b.Materializes() && Filled(l, once, b.id, b.cadence.value, allowed)
    requires forall d :: d in allowed ==> d in PlannedDates(l.rows, b, today, months)
    ensures PlannedDates(once.rows, b, today, months) == PlannedDates(l.rows, b, today, months)
  {
    hide PlannedDates, Filled, Holds;
    var key := MonthKey(today.y, today.m);
    if Holds(l.rows, b.id, key) {
      HeldStaysFilled(l, once, b.id, b.cadence.value, allowed, key);
      SamePlan(l.rows, once.rows, b, today, months);
    } else if Holds(once.rows, b.id, key) && !b.Card() {
      var d := NewHolder(l, once, b.id, b.cadence.value, allowed, key);
      NewMonthIsAhead(l.rows, once.rows, b, today, months, d);
    } else if b.Card() {
      CardPlan(l.rows, once.rows, b, today, months);
    } else {
      SamePlan(l.rows, once.rows, b, today, months);
    }
  }

  lemma CardPlan(rows: Rows, other: Rows, b: Bill, today: Day, months: int)
    requires b.Materializes() && b.Card()
    ensures PlannedDates(other, b, today, months) == PlannedDates(rows, b, today, months) == [b.destination.card.dueDate.value]
  {
  }

  lemma HeldBefore(l: Ledger, once: Ledger, bill: nat, cadence: Cadence, allowed: seq<Day>, i: nat)
    requires Filled(l, once, bill, cadence, allowed) && i in l.rows && once.rows[i].bill == bill
    ensures Holds(l.rows, bill, once.rows[i].key)
  {
    assert FilledRow(l.rows[i], once.rows[i], bill, cadence, allowed);
  }

  /** A key only the filled table holds is the key of one of the dates. */
  lemma NewHolder(l: Ledger, once: Ledger, bill: nat, cadence: Cadence, allowed: seq<Day>, key: Key) returns (d: Day)
    requires Filled(l, once, bill, cadence, allowed) && !Holds(l.rows, bill, key) && Holds(once.rows, bill, key)
    ensures d in allowed && ScheduleKey(cadence, d) == key
  {
    hide ScheduleKey;
    var i :| i in once.rows && once.rows[i].bill == bill && once.rows[i].key == key;
    if i in l.rows { HeldBefore(l, once, bill, cadence, allowed, i); }
    d :| d in allowed && once.rows[i].key == ScheduleKey(cadence, d);
  }

  lemma HeldStaysFilled(l: Ledger, after: Ledger, bill: nat, cadence: Cadence, dates: seq<Day>, key: Key)
    requires Filled(l, after, bill, cadence, dates) && Holds(l.rows, bill, key)
    ensures Holds(after.rows, bill, key)
  {
    var i :| i in l.rows && l.rows[i].bill == bill && l.rows[i].key == key;
    assert FilledRow(l.rows[i], after.rows[i], bill, cadence, dates);
    assert after.rows[i].bill == bill && after.rows[i].key == key;
  }

  lemma OrdinaryFilled(l: Ledger, b: Bill, dates: seq<Day>)
    requires Inv(l) && b.Materializes() && Schedule(dates, b.cadence.value)
    ensures var r := Ordinary(l, b, dates);
            var allowed := NonCollidingScheduleDates(l.rows, b.id, b.cadence.value, WithinEnd(b, dates));
            r.Some? && Filled(l, r.value, b.id, b.cadence.value, allowed) && forall d :: d in allowed ==> d in dates
  {
    var cadence := b.cadence.value;
    var within := WithinEnd(b, dates);
    var allowed := NonCollidingScheduleDates(l.rows, b.id, cadence, within);
    FilterKeepsSchedule(dates, (d: Day) => !Ended(b, d), cadence);
    FilterKeepsSchedule(within, (d: Day) => NonColliding(l.rows, b.id, cadence, d), cadence);
    hide ScheduleKey, Schedule, Inv, Fill, Filled;
    forall d | d in allowed
      ensures Fits(l.rows, b.id, cadence, d)
    {
      assert NonColliding(l.rows, b.id, cadence, d);
    }
    FillFilled(l, b, allowed);
  }

  /** An ordinary pass leaves nothing that would make the next one realign. */
  lemma StaysOrdinary(l: Ledger, once: Ledger, b: Bill, today: Day, dates: seq<Day>, allowed: seq<Day>)
    requires b.Materializes() && Filled(l, once, b.id, b.cadence.value, allowed)
    requires Ordinary(l, b, dates) == Some(once) && OnlyBill(l, once, b.id) && Inv(l)
    requires forall d :: d in allowed ==> d in dates
    requires !Realigns(l.rows, b, today, dates, false)
    requires b.Card() || OpenRowsKeepStatus(l, once)
    ensures !Realigns(once.rows, b, today, dates, false)
  {
    hide Inv, Ordinary;
    forall i | i in once.rows && once.rows[i].bill == b.id
      ensures !once.rows[i].key.Retired?
    {
      if i in l.rows { assert FilledRow(l.rows[i], once.rows[i], b.id, b.cadence.value, allowed); }
    }
    if !b.Card() {
      forall i | i in once.rows && once.rows[i].bill == b.id && once.rows[i].dueDate !in dates
        ensures i in l.rows && l.rows[i].bill == b.id && l.rows[i].dueDate == once.rows[i].dueDate && l.rows[i].status == once.rows[i].status
      {
        if i in l.rows { assert FilledRow(l.rows[i], once.rows[i], b.id, b.cadence.value, allowed); }
      }
    }
  }

  ghost predicate OpenRowsKeepStatus(l: Ledger, after: Ledger) {
    forall i :: i in l.rows && i in after.rows ==> after.rows[i].status == l.rows[i].status
  }

  /** A plain insert changes no existing row's status. */
  lemma InsertKeepsStatus(l: Ledger, b: Bill, dates: seq<Day>)
    requires Inv(l) && b.Materializes() && !b.Card() && Schedule(dates, b.cadence.value)
    requires forall d :: d in dates ==> Fits(l.rows, b.id, b.cadence.value, d)
    ensures var r := Fill(l, b, dates);
            r.Some? && OpenRowsKeepStatus(l, r.value)
  {
    hide Inv, Schedule, ScheduleKey, Fits, Holds, AddedRow;
    InsertSucceeds(l, b.id, b.cadence.value, dates, b.Amount());
    var after := Fill(l, b, dates).value;
    forall i | i in l.rows && i in after.rows
      ensures after.rows[i].status == l.rows[i].status
    {
      assert KeptRow(l, after, b.id, b.cadence.value, dates, b.Amount(), i);
    }
  }

  lemma OrdinaryKeepsStatus(l: Ledger, b: Bill, dates: seq<Day>)
    requires Inv(l) && b.Materializes() && !b.Card() && Schedule(dates, b.cadence.value)
    ensures var r := Ordinary(l, b, dates);
            r.Some? && OpenRowsKeepStatus(l, r.value)
  {
    var cadence := b.cadence.value;
    var within := WithinEnd(b, dates);
    var allowed := NonCollidingScheduleDates(l.rows, b.id, cadence, within);
    FilterKeepsSchedule(dates, (d: Day) => !Ended(b, d), cadence);
    FilterKeepsSchedule(within, (d: Day) => NonColliding(l.rows, b.id, cadence, d), cadence);
    hide ScheduleKey, Schedule, Inv, Fill;
    forall d | d in allowed
      ensures Fits(l.rows, b.id, cadence, d)
    {
      assert NonColliding(l.rows, b.id, cadence, d);
    }
    InsertKeepsStatus(l, b, allowed);
  }

  /** A pass that takes the ordinary branch can be repeated: the next one takes it again and changes nothing at all. */
  lemma OrdinaryPassAgain(l: Ledger, b: Bill, today: Day, months: int)
    requires Inv(l) && b.Materializes()
    requires !Realigns(l.rows, b, today, PlannedDates(l.rows, b, today, months), false)
    ensures var once := MaterializeBill(l, b, today, months, false);
            once.Some? && MaterializeBill(once.value, b, today, months, false) == once
  {
    var dates := PlannedDates(l.rows, b, today, months);
    var cadence := b.cadence.value;
    var within := WithinEnd(b, dates);
    var allowed := NonCollidingScheduleDates(l.rows, b.id, cadence, within);
    PlannedDatesAreSchedule(l.rows, b, today, months);
    OrdinarySafe(l, b, dates);
    OrdinaryAgain(l, b, dates);
    OrdinaryFilled(l, b, dates);
    var once := Ordinary(l, b, dates).value;
    hide Inv, Schedule, ScheduleKey, Realigns, PlannedDates, Filled, OnlyBill;
    if !b.Card() { OrdinaryKeepsStatus(l, b, dates); }
    PlanIsStable(l, once, b, today, months, allowed);
    StaysOrdinary(l, once, b, today, dates, allowed);
  }

  // --------------------------------------------------------------- when a fill changes nothing

  /** Filling this date adds, refreshes and revives nothing. */
  ghost predicate Quiet(rows: Rows, b: Bill, d: Day)
    requires b.Materializes()
  {
    && Holds(rows, b.id, ScheduleKey(b.cadence.value, d))
    && (forall i :: i in rows ==> RefreshRow(rows[i], b.id, ScheduleKey(b.cadence.value, d), d, b.Amount()) == rows[i])
    && (b.Card() ==> forall i :: i in rows ==> !Revivable(rows[i], b.id, d.y, d.m))
  }

  /** A fill changes nothing exactly when each of its dates is quiet. */
  lemma FillUnchanged(l: Ledger, b: Bill, dates: seq<Day>)
    requires Inv(l) && b.Materializes() && Schedule(dates, b.cadence.value)
    requires forall d :: d in dates ==> Fits(l.rows, b.id, b.cadence.value, d)
    ensures Fill(l, b, dates) == Some(l) <==> forall d :: d in dates ==> Quiet(l.rows, b, d)
  {
    hide Inv, Schedule, Fits, Fill, Quiet;
    if forall d :: d in dates ==> Quiet(l.rows, b, d) {
      QuietFill(l, b, dates);
    } else {
      var d :| d in dates && !Quiet(l.rows, b, d);
      FillInserts(l, b, dates);
      LoudFill(l, b, dates, d, Fill(l, b, dates).value);
    }
  }

  lemma QuietFill(l: Ledger, b: Bill, dates: seq<Day>)
    requires Inv(l) && b.Materializes() && Schedule(dates, b.cadence.value)
    requires forall d :: d in dates ==> Quiet(l.rows, b, d)
    ensures Fill(l, b, dates) == Some(l)
  {
    hide Inv, Schedule, ScheduleKey, Fill, Revivable, Holds, Refresh, ReviveAll;
    FillIsInsert(l, b, dates);
    forall d | d in dates
      ensures Holds(l.rows, b.id, ScheduleKey(b.cadence.value, d))
      ensures forall i :: i in l.rows && l.rows[i].bill == b.id && l.rows[i].key == ScheduleKey(b.cadence.value, d) ==>
                l.rows[i] == Refresh(l.rows[i], d, b.Amount())
      ensures b.Card() ==> forall i :: i in l.rows ==> !Revivable(l.rows[i], b.id, d.y, d.m)
    {
      assert Quiet(l.rows, b, d);
    }
    if b.Card() { NothingRevivable(l.rows, b.id, dates); }
    InsertAgain(l, b.id, b.cadence.value, dates, b.Amount());
  }

  lemma LoudFill(l: Ledger, b: Bill, dates: seq<Day>, d: Day, after: Ledger)
    requires b.Materializes() && d in dates && !Quiet(l.rows, b, d)
    requires Inserted(RevivedFirst(l, b, dates), after, b.id, b.cadence.value, dates, b.Amount())
    ensures after != l
  {
    hide ScheduleKey, ReviveAll, RevivedFirst, KeptRow, AddedRow;
    var key := ScheduleKey(b.cadence.value, d);
    if Holds(l.rows, b.id, key) {
      var i :| i in l.rows && (RefreshRow(l.rows[i], b.id, key, d, b.Amount()) != l.rows[i]
                               || (b.Card() && Revivable(l.rows[i], b.id, d.y, d.m)));
      RevivedFirstRow(l, b, dates, i);
      assert KeptRow(RevivedFirst(l, b, dates), after, b.id, b.cadence.value, dates, b.Amount(), i);
      LoudRow(l, b, dates, d, after, i);
    }
  }

  lemma LoudRow(l: Ledger, b: Bill, dates: seq<Day>, d: Day, after: Ledger, i: nat)
    requires b.Materializes() && d in dates && i in l.rows
    requires RefreshRow(l.rows[i], b.id, ScheduleKey(b.cadence.value, d), d, b.Amount()) != l.rows[i]
             || (b.Card() && Revivable(l.rows[i], b.id, d.y, d.m))
    requires i in RevivedFirst(l, b, dates).rows && RevivedFirst(l, b, dates).rows[i] == RevivedAs(b, l.rows[i], dates)
    requires KeptRow(RevivedFirst(l, b, dates), after, b.id, b.cadence.value, dates, b.Amount(), i)
    ensures i in after.rows && after.rows[i] != l.rows[i]
  {
    hide ScheduleKey, RevivedFirst;
    if b.Card() && Revivable(l.rows[i], b.id, d.y, d.m) {
      assert after.rows[i].status == Upcoming by {
        if e :| e in dates && l.rows[i].key == ScheduleKey(b.cadence.value, e) {
          assert after.rows[i] == Refresh(l.rows[i].(status := Upcoming), e, b.Amount());
        }
      }
    }
  }

  // --------------------------------------------------------------- a realigning pass and the next

  /** A retired row stands on a date that is not allowed, so it keeps waiting and the next pass realigns again. */
  ghost predicate LeavesRetired(l: Ledger, b: Bill, today: Day, dates: seq<Day>)
    requires b.Materializes()
  {
    var retired := RetireFutureSchedule(l.rows, b.id, today);
    exists i :: i in retired && WaitsOff(retired[i], b, AllowedDates(l, b, today, dates))
  }

  predicate WaitsOff(r: Occurrence, b: Bill, allowed: seq<Day>) {
    r.bill == b.id && r.key.Retired? && r.dueDate !in allowed
  }

  /**
   Every planned date within the end date that the realignment could not use, and that no other cycle stands on,
   is one an ordinary pass would have nothing to do for.
   */
  ghost predicate RestIsQuiet(l: Ledger, b: Bill, today: Day, dates: seq<Day>)
    requires b.Materializes()
  {
    var retired := RetireFutureSchedule(l.rows, b.id, today);
    forall d :: d in WithinEnd(b, dates) && d !in AllowedDates(l, b, today, dates) && NonColliding(retired, b.id, b.cadence.value, d) ==>
                Quiet(retired, b, d)
  }

  lemma RetiredLeft(l: Ledger, b: Bill, today: Day, dates: seq<Day>, once: Ledger)
    requires Inv(l) && b.Materializes() && Schedule(dates, b.cadence.value) && Realigned(l, once, b, today, dates)
    ensures LeavesRetired(l, b, today, dates) <==> exists i :: i in once.rows && once.rows[i].bill == b.id && once.rows[i].key.Retired?
  {
    var retired, allowed := RetireFutureSchedule(l.rows, b.id, today), AllowedDates(l, b, today, dates);
    RetireKeys(l.rows, b.id, today);
    RealignDatesSchedule(retired, b, today, dates);
    hide Inv, Schedule, RetireFutureSchedule, RealignDates, RealignedRow, WaitsOff, ScheduleKey, Safe, Holds, RetiredRowOn;
    forall i | i in retired
      ensures i in once.rows && (WaitsOff(retired[i], b, allowed) <==> once.rows[i].bill == b.id && once.rows[i].key.Retired?)
    {
      RetiredRowLeft(l, b, today, dates, once, i);
    }
    forall i | i in once.rows && i !in retired
      ensures !once.rows[i].key.Retired?
    {
      var d :| d in allowed && once.rows[i] == NewRow(b.id, ScheduleKey(b.cadence.value, d), d, b.Amount());
      RetiredIsNoScheduleKey(b.cadence.value, d);
    }
  }

  lemma RetiredIsNoScheduleKey(cadence: Cadence, d: Day)
    ensures !ScheduleKey(cadence, d).Retired?
  {
  }

  lemma RetiredRowLeft(l: Ledger, b: Bill, today: Day, dates: seq<Day>, once: Ledger, i: nat)
    requires Inv(l) && b.Materializes() && Schedule(dates, b.cadence.value) && Realigned(l, once, b, today, dates)
    requires i in RetireFutureSchedule(l.rows, b.id, today)
    ensures i in once.rows
    ensures WaitsOff(RetireFutureSchedule(l.rows, b.id, today)[i], b, AllowedDates(l, b, today, dates))
            <==> once.rows[i].bill == b.id && once.rows[i].key.Retired?
  {
    var retired, allowed := RetireFutureSchedule(l.rows, b.id, today), AllowedDates(l, b, today, dates);
    var t := retired[i];
    RealignDatesSchedule(retired, b, today, dates);
    RealignedOldRow(l, once, b, today, dates, i);
    RevivedNeeds(b, t, allowed);
    hide Inv, Schedule, RetireFutureSchedule, AllowedDates, Safe, RevivedBy, Protected, ScheduleKey, Realigned;
    if t.bill == b.id && t.dueDate in allowed {
      RetiredIsNoScheduleKey(b.cadence.value, t.dueDate);
      SafeOnAllowed(l, b, today, dates, t.dueDate);
      SafeMeansUnprotected(retired, b, today, t.dueDate, i);
    }
  }

  lemma SafeMeansUnprotected(rows: Rows, b: Bill, today: Day, d: Day, i: nat)
    requires b.Materializes() && Safe(rows, b.id, b.cadence.value, today, d) && i in rows && rows[i].bill == b.id && rows[i].dueDate == d
    ensures !Protected(rows[i], today)
  {
    hide Protected, ScheduleKey;
  }

  lemma SafeOnAllowed(l: Ledger, b: Bill, today: Day, dates: seq<Day>, d: Day)
    requires b.Materializes() && d in AllowedDates(l, b, today, dates)
    ensures Safe(RetireFutureSchedule(l.rows, b.id, today), b.id, b.cadence.value, today, d) && !Before(d, today)
    ensures d in dates && !Ended(b, d) && d in WithinEnd(b, dates)
  {
    hide Safe, RetireFutureSchedule;
  }

  /** After a realignment no untouched row is off the plan. */
  lemma PhaseHasNotMoved(l: Ledger, b: Bill, today: Day, dates: seq<Day>, once: Ledger)
    requires Inv(l) && b.Materializes() && Schedule(dates, b.cadence.value) && Realigned(l, once, b, today, dates)
    ensures !PhaseMoved(once.rows, b, today, dates)
  {
    if !b.Card() {
      hide Inv, Schedule, Realigned;
      forall i | i in once.rows && once.rows[i].bill == b.id && Untouched(once.rows[i], today)
        ensures once.rows[i].dueDate in dates
      {
        UntouchedIsPlanned(l, b, today, dates, once, i);
      }
    }
  }

  lemma UntouchedIsPlanned(l: Ledger, b: Bill, today: Day, dates: seq<Day>, once: Ledger, i: nat)
    requires Inv(l) && b.Materializes() && !b.Card() && Schedule(dates, b.cadence.value) && Realigned(l, once, b, today, dates)
    requires i in once.rows && once.rows[i].bill == b.id && Untouched(once.rows[i], today)
    ensures once.rows[i].dueDate in dates
  {
    var allowed := AllowedDates(l, b, today, dates);
    hide Inv, Schedule, RetireFutureSchedule, RealignDates, RealignedRow, Holds, RetiredRowOn, ScheduleKey;
    forall d | d in allowed
      ensures d in dates
    {
      SafeOnAllowed(l, b, today, dates, d);
    }
    if i in l.rows {
      RowOf(l, i);
      RealignedOldRow(l, once, b, today, dates, i);
      RetireAt(l.rows, b.id, today, i);
      UntouchedIsAllowed(i, l.rows[i], b, today, allowed);
    } else {
      assert exists d :: d in allowed && once.rows[i] == NewRow(b.id, ScheduleKey(b.cadence.value, d), d, b.Amount());
    }
  }

  /** What the test for a moved phase looks for. */
  predicate Untouched(r: Occurrence, today: Day) {
    && r.status == Upcoming && !Before(r.dueDate, today) && r.dateOverride == None && r.amountOverride == None
    && r.linkedTxn == None && r.markedPaidAt == None
  }

  lemma UntouchedIsAllowed(id: nat, r: Occurrence, b: Bill, today: Day, allowed: seq<Day>)
    requires RowFits(id, r) && b.Materializes() && !b.Card()
    requires var once := RealignedRow(RetireRow(id, r, b.id, today), b, today, allowed); once.bill == b.id && Untouched(once, today)
    ensures RealignedRow(RetireRow(id, r, b.id, today), b, today, allowed).dueDate in allowed
  {
  }

  /** If no retired row is left waiting, this month's key is held after the pass when it was before. */
  lemma MonthStaysHeld(l: Ledger, b: Bill, today: Day, dates: seq<Day>, once: Ledger, key: Key)
    requires Inv(l) && b.Materializes() && b.cadence.value.Monthly? && Schedule(dates, b.cadence.value) && Realigned(l, once, b, today, dates)
    requires !LeavesRetired(l, b, today, dates) && key.MonthKey? && Holds(l.rows, b.id, key)
    ensures Holds(once.rows, b.id, key)
  {
    var i :| i in l.rows && l.rows[i].bill == b.id && l.rows[i].key == key;
    var retired, allowed := RetireFutureSchedule(l.rows, b.id, today), AllowedDates(l, b, today, dates);
    hide Inv, Schedule, RetireFutureSchedule, AllowedDates, Realigned;
    RowOf(l, i);
    RetireAt(l.rows, b.id, today, i);
    RealignedOldRow(l, once, b, today, dates, i);
    assert !WaitsOff(retired[i], b, allowed);
    MonthRowStays(i, l.rows[i], b, today, allowed);
  }

  lemma MonthRowStays(id: nat, r: Occurrence, b: Bill, today: Day, allowed: seq<Day>)
    requires RowFits(id, r) && b.Materializes() && b.cadence.value.Monthly? && r.bill == b.id && r.key.MonthKey?
    requires !WaitsOff(RetireRow(id, r, b.id, today), b, allowed)
    ensures var once := RealignedRow(RetireRow(id, r, b.id, today), b, today, allowed); once.bill == b.id && once.key == r.key
  {
    hide RevivedBy;
  }

  /** A month key only the realigned table holds is that of an allowed date. */
  lemma NewMonthIsAllowed(l: Ledger, b: Bill, today: Day, dates: seq<Day>, once: Ledger, key: Key) returns (d: Day)
    requires Inv(l) && b.Materializes() && Schedule(dates, b.cadence.value) && Realigned(l, once, b, today, dates)
    requires key.MonthKey? && !Holds(l.rows, b.id, key) && Holds(once.rows, b.id, key)
    ensures d in dates && ScheduleKey(b.cadence.value, d) == key
  {
    var i :| i in once.rows && once.rows[i].bill == b.id && once.rows[i].key == key;
    hide Inv, Schedule, AllowedDates, Realigned, ScheduleKey, Holds;
    if i in l.rows { OldKeyIsAllowed(l, b, today, dates, once, i); }
    if i in l.rows && l.rows[i].key == key { HeldBy(l.rows, b.id, i); }
    if i in l.rows { d := l.rows[i].dueDate; } else { d := NewKeyIsAllowed(l, b, today, dates, once, i); }
    SafeOnAllowed(l, b, today, dates, d);
  }

  lemma HeldBy(rows: Rows, bill: nat, i: nat)
    requires i in rows && rows[i].bill == bill
    ensures Holds(rows, bill, rows[i].key)
  {
  }

  lemma NewKeyIsAllowed(l: Ledger, b: Bill, today: Day, dates: seq<Day>, once: Ledger, i: nat) returns (d: Day)
    requires b.Materializes() && Realigned(l, once, b, today, dates) && i in once.rows && i !in l.rows
    ensures d in AllowedDates(l, b, today, dates) && once.rows[i].key == ScheduleKey(b.cadence.value, d)
  {
    hide RetireFutureSchedule, AllowedDates, RealignedRow, RetiredRowOn, Holds;
    d :| d in AllowedDates(l, b, today, dates) && once.rows[i] == NewRow(b.id, ScheduleKey(b.cadence.value, d), d, b.Amount());
    NewRowKey(b.id, ScheduleKey(b.cadence.value, d), d, b.Amount());
  }

  lemma NewRowKey(bill: nat, key: Key, date: Day, amount: int)
    ensures NewRow(bill, key, date, amount).key == key
  {
  }

  lemma OldKeyIsAllowed(l: Ledger, b: Bill, today: Day, dates: seq<Day>, once: Ledger, i: nat)
    requires b.Materializes() && Realigned(l, once, b, today, dates) && i in once.rows && i in l.rows
    ensures once.rows[i].bill == l.rows[i].bill
    ensures once.rows[i].key == l.rows[i].key || once.rows[i].key.Retired?
            || (l.rows[i].dueDate in AllowedDates(l, b, today, dates) && once.rows[i].key == ScheduleKey(b.cadence.value, l.rows[i].dueDate))
  {
    hide RetireFutureSchedule, AllowedDates, Realigned, ScheduleKey, RealignedRow, RetireRow;
    RetireAt(l.rows, b.id, today, i);
    RealignedOldRow(l, once, b, today, dates, i);
    KeyFromAllowed(i, l.rows[i], b, today, AllowedDates(l, b, today, dates));
  }

  lemma KeyFromAllowed(id: nat, r: Occurrence, b: Bill, today: Day, allowed: seq<Day>)
    requires b.Materializes()
    ensures var once := RealignedRow(RetireRow(id, r, b.id, today), b, today, allowed);
            && once.bill == r.bill && once.dueDate == r.dueDate
            && (once.key == r.key || once.key.Retired? || (r.dueDate in allowed && once.key == ScheduleKey(b.cadence.value, r.dueDate)))
  {
    hide RevivedBy, ScheduleKey;
  }

  /** So the second pass plans the same dates, unless it realigns a monthly bill again. */
  lemma PlanAfterRealign(l: Ledger, b: Bill, today: Day, months: int, once: Ledger)
    requires Inv(l) && b.Materializes() && Realigned(l, once, b, today, PlannedDates(l.rows, b, today, months))
    requires Schedule(PlannedDates(l.rows, b, today, months), b.cadence.value)
    requires b.Card() || !b.cadence.value.Monthly? || !LeavesRetired(l, b, today, PlannedDates(l.rows, b, today, months))
    ensures PlannedDates(once.rows, b, today, months) == PlannedDates(l.rows, b, today, months)
  {
    var dates := PlannedDates(l.rows, b, today, months);
    var key := MonthKey(today.y, today.m);
    hide PlannedDates, Holds, Inv, Schedule, Realigned, LeavesRetired;
    if b.Card() {
      CardPlan(l.rows, once.rows, b, today, months);
    } else if b.cadence.value.Monthly? && Holds(l.rows, b.id, key) {
      MonthStaysHeld(l, b, today, dates, once, key);
      SamePlan(l.rows, once.rows, b, today, months);
    } else if b.cadence.value.Monthly? && Holds(once.rows, b.id, key) {
      var d := NewMonthIsAllowed(l, b, today, dates, once, key);
      NewMonthIsAhead(l.rows, once.rows, b, today, months, d);
    } else {
      SamePlan(l.rows, once.rows, b, today, months);
    }
  }

  // --------------------------------------------------------------- an ordinary pass after a realigning one

  /** An allowed date has its row, on the date and with the amount. */
  lemma AllowedIsQuiet(l: Ledger, b: Bill, today: Day, dates: seq<Day>, once: Ledger, d: Day)
    requires Inv(l) && b.Materializes() && Schedule(dates, b.cadence.value) && Realigned(l, once, b, today, dates)
    requires d in AllowedDates(l, b, today, dates)
    ensures Quiet(once.rows, b, d)
  {
    hide Inv, Schedule, RetireFutureSchedule, AllowedDates, RealignedRow, RetiredRowOn, ScheduleKey, Revivable, Holds, RefreshRow;
    forall i | i in once.rows
      ensures RefreshRow(once.rows[i], b.id, ScheduleKey(b.cadence.value, d), d, b.Amount()) == once.rows[i]
      ensures b.Card() ==> !Revivable(once.rows[i], b.id, d.y, d.m)
    {
      AllowedRowIsQuiet(l, b, today, dates, once, d, i);
      if b.Card() { AllowedRowStays(l, b, today, dates, once, d, i); }
    }
  }

  lemma AllowedRowIsQuiet(l: Ledger, b: Bill, today: Day, dates: seq<Day>, once: Ledger, d: Day, i: nat)
    requires Inv(l) && b.Materializes() && Schedule(dates, b.cadence.value) && Realigned(l, once, b, today, dates)
    requires d in AllowedDates(l, b, today, dates) && i in once.rows
    ensures RefreshRow(once.rows[i], b.id, ScheduleKey(b.cadence.value, d), d, b.Amount()) == once.rows[i]
  {
    hide Inv, Schedule, RetireFutureSchedule, AllowedDates, ScheduleKey, Realigned;
    if once.rows[i].bill == b.id && once.rows[i].key == ScheduleKey(b.cadence.value, d) { HolderIsOnDate(l, b, today, dates, once, d, i); }
  }

  lemma AllowedRowStays(l: Ledger, b: Bill, today: Day, dates: seq<Day>, once: Ledger, d: Day, i: nat)
    requires Inv(l) && b.Materializes() && b.Card() && Schedule(dates, b.cadence.value) && Realigned(l, once, b, today, dates)
    requires d in AllowedDates(l, b, today, dates) && i in once.rows
    ensures !Revivable(once.rows[i], b.id, d.y, d.m)
  {
    var allowed := AllowedDates(l, b, today, dates);
    hide Inv, Schedule, RetireFutureSchedule, AllowedDates, RealignedRow, RetiredRowOn, ScheduleKey, Revivable, Holds, RetireRow;
    if i in l.rows {
      RetireAt(l.rows, b.id, today, i);
      RealignedOldRow(l, once, b, today, dates, i);
      RevivedOnce(RetireRow(i, l.rows[i], b.id, today), b, today, allowed, d);
    } else {
      var e :| e in allowed && once.rows[i] == NewRow(b.id, ScheduleKey(b.cadence.value, e), e, b.Amount());
      NewIsNotRevivable(b, e, d);
    }
  }

  lemma NewIsNotRevivable(b: Bill, e: Day, d: Day)
    requires b.Materializes()
    ensures !Revivable(NewRow(b.id, ScheduleKey(b.cadence.value, e), e, b.Amount()), b.id, d.y, d.m)
  {
  }

  lemma RevivedOnce(t: Occurrence, b: Bill, today: Day, allowed: seq<Day>, d: Day)
    requires b.Materializes() && d in allowed && b.Card()
    ensures !Revivable(RealignedRow(t, b, today, allowed), b.id, d.y, d.m)
  {
    hide ScheduleKey, Protected;
  }

  /** Neither holds the date's key, nor stands on the date, nor would be revived for it. */
  predicate Elsewhere(r: Occurrence, b: Bill, d: Day)
    requires b.Materializes()
  {
    && r.key != ScheduleKey(b.cadence.value, d) && r.dueDate != d && r.dateOverride != Some(d)
    && !Revivable(r, b.id, d.y, d.m)
  }

  predicate SameFor(a: Occurrence, r: Occurrence, b: Bill, d: Day)
    requires b.Materializes()
  {
    a == r || (a.bill == r.bill && Elsewhere(a, b, d) && Elsewhere(r, b, d))
  }

  lemma SameTables(rows: Rows, after: Rows, b: Bill, d: Day)
    requires b.Materializes()
    requires forall i :: i in rows ==> i in after && SameFor(after[i], rows[i], b, d)
    requires forall i :: i in after && i !in rows ==> Elsewhere(after[i], b, d)
    ensures NonColliding(after, b.id, b.cadence.value, d) == NonColliding(rows, b.id, b.cadence.value, d)
    ensures Quiet(after, b, d) == Quiet(rows, b, d)
  {
    hide ScheduleKey, Revivable, Refresh;
    assert Holds(after, b.id, ScheduleKey(b.cadence.value, d)) == Holds(rows, b.id, ScheduleKey(b.cadence.value, d));
  }

  /** A planned date that is not allowed finds the same rows before and after the realignment's fill. */
  lemma RestIsSame(l: Ledger, b: Bill, today: Day, dates: seq<Day>, once: Ledger, d: Day)
    requires Inv(l) && b.Materializes() && Schedule(dates, b.cadence.value) && Realigned(l, once, b, today, dates)
    requires d in dates && d !in AllowedDates(l, b, today, dates) && (b.Card() ==> |dates| == 1)
    ensures var retired := RetireFutureSchedule(l.rows, b.id, today);
            && NonColliding(once.rows, b.id, b.cadence.value, d) == NonColliding(retired, b.id, b.cadence.value, d)
            && Quiet(once.rows, b, d) == Quiet(retired, b, d)
  {
    var retired, allowed := RetireFutureSchedule(l.rows, b.id, today), AllowedDates(l, b, today, dates);
    RetireKeys(l.rows, b.id, today);
    DifferentKeys(dates, b.cadence.value);
    hide Inv, Schedule, RetireFutureSchedule, RealignDates, RealignedRow, RetiredRowOn, ScheduleKey, SameFor, Elsewhere, Holds;
    forall e | e in allowed
      ensures e != d && ScheduleKey(b.cadence.value, e) != ScheduleKey(b.cadence.value, d) && !b.Card()
    {
      SafeOnAllowed(l, b, today, dates, e);
      assert e in DateSet(dates) && d in DateSet(dates);
    }
    forall i | i in retired
      ensures i in once.rows && SameFor(once.rows[i], retired[i], b, d)
    {
      RowOf(l, i);
      RetireAt(l.rows, b.id, today, i);
      RealignedOldRow(l, once, b, today, dates, i);
      RestRowIsSame(i, l.rows[i], b, today, allowed, d);
    }
    forall i | i in once.rows && i !in retired
      ensures Elsewhere(once.rows[i], b, d)
    {
      var e :| e in allowed && once.rows[i] == NewRow(b.id, ScheduleKey(b.cadence.value, e), e, b.Amount());
      NewIsElsewhere(b, e, d);
    }
    SameTables(retired, once.rows, b, d);
  }

  lemma NewIsElsewhere(b: Bill, e: Day, d: Day)
    requires b.Materializes() && e != d && ScheduleKey(b.cadence.value, e) != ScheduleKey(b.cadence.value, d)
    ensures Elsewhere(NewRow(b.id, ScheduleKey(b.cadence.value, e), e, b.Amount()), b, d)
  {
  }

  lemma RestRowIsSame(id: nat, r: Occurrence, b: Bill, today: Day, allowed: seq<Day>, d: Day)
    requires RowFits(id, r) && b.Materializes()
    requires forall e :: e in allowed ==> e != d && ScheduleKey(b.cadence.value, e) != ScheduleKey(b.cadence.value, d) && !b.Card()
    ensures var t := RetireRow(id, r, b.id, today);
            SameFor(RealignedRow(t, b, today, allowed), t, b, d)
  {
    var t := RetireRow(id, r, b.id, today);
    RevivedNeeds(b, t, allowed);
    hide RevivedBy;
    if t.bill == b.id && !Protected(t, today) && t.dueDate in allowed {
      assert Elsewhere(t, b, d);
      assert Elsewhere(Adopt(t, b.cadence.value, b.Amount()), b, d);
    }
  }

  /** The ordinary pass after a realigning one changes nothing exactly when the dates left over are quiet. */
  lemma OrdinaryAfterRealign(l: Ledger, b: Bill, today: Day, dates: seq<Day>, once: Ledger)
    requires Inv(l) && Inv(once) && b.Materializes() && Schedule(dates, b.cadence.value) && Realigned(l, once, b, today, dates)
    requires b.Card() ==> |dates| == 1
    ensures Ordinary(once, b, dates) == Some(once) <==> RestIsQuiet(l, b, today, dates)
  {
    var cadence, within := b.cadence.value, WithinEnd(b, dates);
    var retired := RetireFutureSchedule(l.rows, b.id, today);
    var next := NonCollidingScheduleDates(once.rows, b.id, cadence, within);
    FilterKeepsSchedule(dates, (d: Day) => !Ended(b, d), cadence);
    FilterKeepsSchedule(within, (d: Day) => NonColliding(once.rows, b.id, cadence, d), cadence);
    forall d | d in next
      ensures Fits(once.rows, b.id, cadence, d)
    {
      assert NonColliding(once.rows, b.id, cadence, d);
    }
    hide Inv, Schedule, ScheduleKey, Quiet, NonColliding, Fill, Fits, AllowedDates, Realigned, RetireFutureSchedule;
    FillUnchanged(once, b, next);
    forall d | d in within
      ensures d in AllowedDates(l, b, today, dates) ==> Quiet(once.rows, b, d)
      ensures d !in AllowedDates(l, b, today, dates) ==>
                NonColliding(once.rows, b.id, cadence, d) == NonColliding(retired, b.id, cadence, d) && Quiet(once.rows, b, d) == Quiet(retired, b, d)
    {
      if d in AllowedDates(l, b, today, dates) { AllowedIsQuiet(l, b, today, dates, once, d); } else { RestIsSame(l, b, today, dates, once, d); }
    }
  }

  // --------------------------------------------------------------- whole passes again

  /** Rescheduling a bill twice on one day is rescheduling it once, exactly when what the first pass revived is all past. */
  lemma RescheduleAgain(l: Ledger, b: Bill, today: Day, months: int)
    requires Inv(l) && b.Materializes()
    ensures var once := MaterializeBill(l, b, today, months, true);
            once.Some? && (MaterializeBill(once.value, b, today, months, true) == once
                           <==> RevivesPastOnly(l, b, today, PlannedDates(l.rows, b, today, months)))
    ensures !b.Card() || b.cadence.value.Monthly? ==> RevivesPastOnly(l, b, today, PlannedDates(l.rows, b, today, months))
  {
    var dates := PlannedDates(l.rows, b, today, months);
    PlannedDatesAreSchedule(l.rows, b, today, months);
    hide PlannedDates, Inv, RevivesPastOnly, Schedule, Realign;
    RealignAgain(l, b, today, dates);
    RealignOnNewPlan(Realign(l, b, today, dates).value, l.rows, b, today, months);
  }

  /** A realignment does not depend on which past dates the plan kept. */
  lemma RealignOnNewPlan(once: Ledger, rows: Rows, b: Bill, today: Day, months: int)
    requires b.Materializes()
    ensures Realign(once, b, today, PlannedDates(once.rows, b, today, months)) == Realign(once, b, today, PlannedDates(rows, b, today, months))
  {
    if !b.Card() {
      var cursor, cadence := FirstCursor(b.nextExpected.value, b.cadence.value), b.cadence.value;
      var start := CatchUp(cursor, cadence, today);
      PastBeforeToday(rows, b.id, cursor, cadence, today);
      PastBeforeToday(once.rows, b.id, cursor, cadence, today);
      hide Realign, CatchUp, PastDates, FutureDates, FirstCursor;
      RealignIgnoresPast(once, b, today, PastDates(once.rows, b.id, cursor, cadence, today), PastDates(rows, b.id, cursor, cadence, today),
                         FutureDates(start, cadence, Horizon(today, months)));
    }
  }

  /** What decides whether the pass after a realigning one changes anything. */
  ghost predicate NextPassKeeps(l: Ledger, b: Bill, today: Day, dates: seq<Day>)
    requires b.Materializes()
  {
    if LeavesRetired(l, b, today, dates) then RevivesPastOnly(l, b, today, dates) else RestIsQuiet(l, b, today, dates)
  }

  /**
   After any pass, an ordinary request for another pass on the same day changes nothing, except after a realignment:
   if that left a retired row waiting, the next pass realigns too and must not find a revived row still to come; if
   not, every planned date it could not use must be quiet.
   */
  lemma MaterializeAgain(l: Ledger, b: Bill, today: Day, months: int, reschedule: bool)
    requires Inv(l) && b.Materializes()
    ensures var dates := PlannedDates(l.rows, b, today, months);
            var once := MaterializeBill(l, b, today, months, reschedule);
            once.Some? && (MaterializeBill(once.value, b, today, months, false) == once
                           <==> (Realigns(l.rows, b, today, dates, reschedule) ==> NextPassKeeps(l, b, today, dates)))
  {
    var dates := PlannedDates(l.rows, b, today, months);
    hide PlannedDates, Inv, NextPassKeeps, Realigns, Realign, Ordinary;
    if Realigns(l.rows, b, today, dates, reschedule) {
      PassAfterRealign(l, b, today, months);
    } else {
      NotRescheduled(l.rows, b, today, dates, reschedule);
      OrdinaryPassAgain(l, b, today, months);
    }
  }

  lemma NotRescheduled(rows: Rows, b: Bill, today: Day, dates: seq<Day>, reschedule: bool)
    requires b.Materializes() && !Realigns(rows, b, today, dates, reschedule)
    ensures !reschedule && !Realigns(rows, b, today, dates, false)
  {
  }

  lemma PassAfterRealign(l: Ledger, b: Bill, today: Day, months: int)
    requires Inv(l) && b.Materializes()
    ensures var dates := PlannedDates(l.rows, b, today, months);
            var once := Realign(l, b, today, dates);
            once.Some? && (MaterializeBill(once.value, b, today, months, false) == once <==> NextPassKeeps(l, b, today, dates))
  {
    var dates := PlannedDates(l.rows, b, today, months);
    PlannedDatesAreSchedule(l.rows, b, today, months);
    if b.Card() { CardPlan(l.rows, l.rows, b, today, months); }
    hide PlannedDates, Inv, Schedule, Realign, Ordinary, Realigned, OnlyBill, LeavesRetired, RevivesPastOnly, RestIsQuiet;
    RealignSafe(l, b, today, dates);
    RealignLeaves(l, b, today, dates);
    RealignAgain(l, b, today, dates);
    var once := Realign(l, b, today, dates).value;
    NextRealigns(l, b, today, months, once);
    if LeavesRetired(l, b, today, dates) {
      RealignOnNewPlan(once, l.rows, b, today, months);
    } else {
      PlanAfterRealign(l, b, today, months, once);
      OrdinaryAfterRealign(l, b, today, dates, once);
    }
  }

  /** The next pass realigns exactly when a retired row is left waiting. */
  lemma NextRealigns(l: Ledger, b: Bill, today: Day, months: int, once: Ledger)
    requires Inv(l) && b.Materializes() && Schedule(PlannedDates(l.rows, b, today, months), b.cadence.value)
    requires Realigned(l, once, b, today, PlannedDates(l.rows, b, today, months))
    ensures Realigns(once.rows, b, today, PlannedDates(once.rows, b, today, months), false)
            <==> LeavesRetired(l, b, today, PlannedDates(l.rows, b, today, months))
  {
    var dates := PlannedDates(l.rows, b, today, months);
    hide PlannedDates, Inv, Schedule, Realigned, LeavesRetired;
    RetiredLeft(l, b, today, dates, once);
    PhaseHasNotMoved(l, b, today, dates, once);
    if b.Card() || !b.cadence.value.Monthly? { PlanAfterRealign(l, b, today, months, once); }
  }

  /** A planned date that no other cycle stands on, whose own key an open row holds on another date or for another amount. */
  ghost predicate Moves(rows: Rows, b: Bill, dates: seq<Day>, i: nat, d: Day)
    requires b.Materializes()
  {
    && d in WithinEnd(b, dates) && NonColliding(rows, b.id, b.cadence.value, d)
    && i in rows && RefreshRow(rows[i], b.id, ScheduleKey(b.cadence.value, d), d, b.Amount()) != rows[i]
  }

  /** For any bill but a card's, the dates left over are quiet exactly when no protected open row would be moved or repriced. */
  lemma OnlyOpenRowsMove(l: Ledger, b: Bill, today: Day, months: int)
    requires Inv(l) && b.Materializes() && !b.Card() && !LeavesRetired(l, b, today, PlannedDates(l.rows, b, today, months))
    ensures var dates := PlannedDates(l.rows, b, today, months);
            RestIsQuiet(l, b, today, dates) <==>
            forall i, d :: i in l.rows ==> !Moves(RetireFutureSchedule(l.rows, b.id, today), b, dates, i, d)
  {
    var dates, retired := PlannedDates(l.rows, b, today, months), RetireFutureSchedule(l.rows, b.id, today);
    RetireKeys(l.rows, b.id, today);
    PlannedDatesAreSchedule(l.rows, b, today, months);
    hide Inv, Schedule, PlannedDates, RetireFutureSchedule, AllowedDates, NonColliding, WithinEnd, RefreshRow, ScheduleKey, Holds, LeavesRetired;
    forall d | d in WithinEnd(b, dates) && NonColliding(retired, b.id, b.cadence.value, d)
      ensures d in AllowedDates(l, b, today, dates) ==> forall i :: i in l.rows ==> !Moves(retired, b, dates, i, d)
      ensures d !in AllowedDates(l, b, today, dates) ==> Holds(retired, b.id, ScheduleKey(b.cadence.value, d))
    {
      if d in AllowedDates(l, b, today, dates) {
        forall i | i in l.rows
          ensures !Moves(retired, b, dates, i, d)
        {
          NoOldHolder(l, b, today, dates, d, i);
        }
      } else {
        LeftOverIsHeld(l, b, today, months, d);
      }
    }
    if RestIsQuiet(l, b, today, dates) {
      forall i, d | i in l.rows
        ensures !Moves(retired, b, dates, i, d)
      {
        if d in WithinEnd(b, dates) && NonColliding(retired, b.id, b.cadence.value, d) && d !in AllowedDates(l, b, today, dates) {
          QuietMovesNothing(retired, b, dates, i, d);
        }
      }
    } else {
      var d :| d in WithinEnd(b, dates) && d !in AllowedDates(l, b, today, dates) && NonColliding(retired, b.id, b.cadence.value, d)
               && !Quiet(retired, b, d);
      var i :| i in retired && RefreshRow(retired[i], b.id, ScheduleKey(b.cadence.value, d), d, b.Amount()) != retired[i];
      assert Moves(retired, b, dates, i, d);
    }
  }

  lemma QuietMovesNothing(rows: Rows, b: Bill, dates: seq<Day>, i: nat, d: Day)
    requires b.Materializes() && Quiet(rows, b, d)
    ensures !Moves(rows, b, dates, i, d)
  {
  }

  lemma NoOldHolder(l: Ledger, b: Bill, today: Day, dates: seq<Day>, d: Day, i: nat)
    requires Inv(l) && b.Materializes() && d in AllowedDates(l, b, today, dates) && i in l.rows
    ensures !Moves(RetireFutureSchedule(l.rows, b.id, today), b, dates, i, d)
  {
    var retired := RetireFutureSchedule(l.rows, b.id, today);
    SafeOnAllowed(l, b, today, dates, d);
    RetireKeys(l.rows, b.id, today);
    RetireAt(l.rows, b.id, today, i);
    if l.rows[i].bill == b.id { RetiredOrProtected(l, b.id, today, i); }
    RetiredIsNoScheduleKey(b.cadence.value, d);
    hide Inv, AllowedDates, RetireFutureSchedule, Safe, Protected, ScheduleKey, RetireRow, NonColliding, WithinEnd, Refresh;
    if retired[i].bill == b.id && Protected(retired[i], today) { SafeApart(retired, b, today, d, i); }
    RetireRowBill(i, l.rows[i], b.id, today);
  }

  lemma RetireRowBill(id: nat, r: Occurrence, bill: nat, today: Day)
    ensures RetireRow(id, r, bill, today).bill == r.bill
  {
  }

  /** A date left over is one whose key is held: a kept past date, or one refused for a protected row's key. */
  lemma LeftOverIsHeld(l: Ledger, b: Bill, today: Day, months: int, d: Day)
    requires Inv(l) && b.Materializes() && !b.Card() && !LeavesRetired(l, b, today, PlannedDates(l.rows, b, today, months))
    requires var dates, retired := PlannedDates(l.rows, b, today, months), RetireFutureSchedule(l.rows, b.id, today);
             d in WithinEnd(b, dates) && d !in AllowedDates(l, b, today, dates) && NonColliding(retired, b.id, b.cadence.value, d)
    ensures Holds(RetireFutureSchedule(l.rows, b.id, today), b.id, ScheduleKey(b.cadence.value, d))
  {
    var dates := PlannedDates(l.rows, b, today, months);
    if Before(d, today) {
      PastPlanned(l.rows, b, today, months, d);
      PlannedDatesAreSchedule(l.rows, b, today, months);
      hide PlannedDates, Inv, Schedule, AllowedDates, RetireFutureSchedule, LeavesRetired, NonColliding, Holds, WithinEnd;
      KeptPastIsHeld(l, b, today, dates, d);
    } else {
      hide PlannedDates, Inv, RetireFutureSchedule, LeavesRetired;
      RefusedIsHeld(RetireFutureSchedule(l.rows, b.id, today), b, today, dates, d);
    }
  }

  lemma RefusedIsHeld(retired: Rows, b: Bill, today: Day, dates: seq<Day>, d: Day)
    requires b.Materializes() && d in WithinEnd(b, dates) && !Before(d, today) && d !in RealignDates(retired, b, today, dates)
    requires NonColliding(retired, b.id, b.cadence.value, d)
    ensures Holds(retired, b.id, ScheduleKey(b.cadence.value, d))
  {
    hide Protected, ScheduleKey;
    assert !Safe(retired, b.id, b.cadence.value, today, d);
  }

  lemma PastPlanned(rows: Rows, b: Bill, today: Day, months: int, d: Day)
    requires b.Materializes() && !b.Card() && d in WithinEnd(b, PlannedDates(rows, b, today, months)) && Before(d, today)
    ensures d in PlannedDates(rows, b, today, months)
    ensures b.cadence.value.Monthly? && d.y == today.y && d.m == today.m && Holds(rows, b.id, MonthKey(today.y, today.m))
  {
    var cursor, cadence := FirstCursor(b.nextExpected.value, b.cadence.value), b.cadence.value;
    var start := CatchUp(cursor, cadence, today);
    PastBeforeToday(rows, b.id, cursor, cadence, today);
    FutureRises(start, cadence, Horizon(today, months));
    hide CatchUp, PastDates, FutureDates, FirstCursor, Horizon, Holds, Rising;
    var planned := PlannedDates(rows, b, today, months);
    assert d in planned;
    assert d in PastDates(rows, b.id, cursor, cadence, today) + FutureDates(start, cadence, Horizon(today, months));
  }

  lemma OneDateAKey(dates: seq<Day>, cadence: Cadence, d: Day, e: Day)
    requires Schedule(dates, cadence) && d in dates && e in dates && ScheduleKey(cadence, d) == ScheduleKey(cadence, e)
    ensures d == e
  {
    hide ScheduleKey, Schedule;
    DifferentKeys(dates, cadence);
    assert d in DateSet(dates) && e in DateSet(dates);
  }

  lemma KeptPastIsHeld(l: Ledger, b: Bill, today: Day, dates: seq<Day>, d: Day)
    requires Inv(l) && b.Materializes() && b.cadence.value.Monthly? && Schedule(dates, b.cadence.value) && !LeavesRetired(l, b, today, dates)
    requires d in dates && Before(d, today) && ScheduleKey(b.cadence.value, d) == MonthKey(today.y, today.m)
    requires Holds(l.rows, b.id, MonthKey(today.y, today.m))
    ensures Holds(RetireFutureSchedule(l.rows, b.id, today), b.id, ScheduleKey(b.cadence.value, d))
  {
    var key := MonthKey(today.y, today.m);
    var i :| i in l.rows && l.rows[i].bill == b.id && l.rows[i].key == key;
    var retired, allowed := RetireFutureSchedule(l.rows, b.id, today), AllowedDates(l, b, today, dates);
    RowOf(l, i);
    RetireAt(l.rows, b.id, today, i);
    assert !WaitsOff(retired[i], b, allowed);
    hide Inv, Schedule, AllowedDates, RetireFutureSchedule, LeavesRetired;
    if Retirable(l.rows[i], b.id, today) {
      SafeOnAllowed(l, b, today, dates, l.rows[i].dueDate);
      OneDateAKey(dates, b.cadence.value, l.rows[i].dueDate, d);
    } else {
      assert retired[i].key == key;
    }
  }

  /** Each such row stays where it is in the realigning pass and is refreshed onto the date by the next. */
  lemma NextPassMoves(l: Ledger, b: Bill, today: Day, months: int, i: nat, d: Day)
    requires Inv(l) && b.Materializes() && !b.Card() && !LeavesRetired(l, b, today, PlannedDates(l.rows, b, today, months))
    requires i in l.rows && Moves(RetireFutureSchedule(l.rows, b.id, today), b, PlannedDates(l.rows, b, today, months), i, d)
    ensures var once := MaterializeBill(l, b, today, months, true);
            && once.Some? && i in once.value.rows && once.value.rows[i] == l.rows[i]
            && var next := MaterializeBill(once.value, b, today, months, false);
            next.Some? && i in next.value.rows && next.value.rows[i] == l.rows[i].(dueDate := d, amount := b.Amount())
  {
    var dates := PlannedDates(l.rows, b, today, months);
    PlannedDatesAreSchedule(l.rows, b, today, months);
    MovesMeans(l, b, today, dates, i, d);
    if d in AllowedDates(l, b, today, dates) { NoOldHolder(l, b, today, dates, d, i); }
    hide PlannedDates, Inv, Schedule, Realign, Ordinary, Realigned, OnlyBill, LeavesRetired, Realigns, AllowedDates, RetireFutureSchedule, Moves;
    RealignSafe(l, b, today, dates);
    RealignLeaves(l, b, today, dates);
    var once := Realign(l, b, today, dates).value;
    assert MaterializeBill(l, b, today, months, true) == Some(once) by { Rescheduled(l.rows, b, today, dates); }
    NextRealigns(l, b, today, months, once);
    PlanAfterRealign(l, b, today, months, once);
    RealignedOldRow(l, once, b, today, dates, i);
    RetireAt(l.rows, b.id, today, i);
    RowOf(l, i);
    ProtectedStays(i, l.rows[i], b, today, AllowedDates(l, b, today, dates), d);
    RestIsSame(l, b, today, dates, once, d);
    OrdinaryRefreshes(once, b, dates, i, d);
  }

  lemma Rescheduled(rows: Rows, b: Bill, today: Day, dates: seq<Day>)
    requires b.Materializes()
    ensures Realigns(rows, b, today, dates, true)
  {
  }

  lemma MovesMeans(l: Ledger, b: Bill, today: Day, dates: seq<Day>, i: nat, d: Day)
    requires b.Materializes() && i in l.rows && Moves(RetireFutureSchedule(l.rows, b.id, today), b, dates, i, d)
    ensures d in dates && d in WithinEnd(b, dates)
    ensures NonColliding(RetireFutureSchedule(l.rows, b.id, today), b.id, b.cadence.value, d)
    ensures l.rows[i].bill == b.id && l.rows[i].key == ScheduleKey(b.cadence.value, d) && l.rows[i].Open()
    ensures RetireRow(i, l.rows[i], b.id, today) == l.rows[i]
  {
    hide NonColliding;
    RetireAt(l.rows, b.id, today, i);
    RetiredIsNoScheduleKey(b.cadence.value, d);
    hide RetireFutureSchedule;
  }

  lemma ProtectedStays(id: nat, r: Occurrence, b: Bill, today: Day, allowed: seq<Day>, d: Day)
    requires b.Materializes() && !b.Card() && RetireRow(id, r, b.id, today) == r && r.Open() && r.bill == b.id
    requires RowFits(id, r) && r.key == ScheduleKey(b.cadence.value, d)
    ensures RealignedRow(r, b, today, allowed) == r
  {
  }

  lemma OrdinaryRefreshes(l: Ledger, b: Bill, dates: seq<Day>, i: nat, d: Day)
    requires Inv(l) && b.Materializes() && !b.Card() && Schedule(dates, b.cadence.value)
    requires d in WithinEnd(b, dates) && NonColliding(l.rows, b.id, b.cadence.value, d)
    requires i in l.rows && l.rows[i].bill == b.id && l.rows[i].key == ScheduleKey(b.cadence.value, d)
    ensures var next := Ordinary(l, b, dates);
            next.Some? && i in next.value.rows && next.value.rows[i] == Refresh(l.rows[i], d, b.Amount())
  {
    var cadence, within := b.cadence.value, WithinEnd(b, dates);
    var allowed := NonCollidingScheduleDates(l.rows, b.id, cadence, within);
    FilterKeepsSchedule(dates, (d: Day) => !Ended(b, d), cadence);
    FilterKeepsSchedule(within, (d: Day) => NonColliding(l.rows, b.id, cadence, d), cadence);
    forall d | d in allowed
      ensures Fits(l.rows, b.id, cadence, d)
    {
      assert NonColliding(l.rows, b.id, cadence, d);
    }
    assert d in allowed;
    hide Inv, Schedule, ScheduleKey, NonColliding, Fill, Fits, Refresh;
    FillInserts(l, b, allowed);
    assert KeptRow(l, Fill(l, b, allowed).value, b.id, cadence, allowed, b.Amount(), i);
  }
}
