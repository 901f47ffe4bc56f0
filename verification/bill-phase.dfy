/** When a pass over a bill moves its future schedule, and when it leaves every row where it was (src/modules/bills/bills.service.ts). */
module BillPhase {
  import opened Wrappers
  import opened Calendar
  import opened Occurrences
  import opened BillSchedule
  import opened BillOccurrencesRepository
  import opened BillMaterialization
  import opened BillMaterializationProofs
  import opened BillRealignment
  import opened BillRepetition
  import opened RecurringEngine

  /** An expected payment nobody has touched: upcoming, due today or later, not edited, not linked, not marked paid. */
  predicate Expected(r: Occurrence, bill: nat, today: Day) {
    && r.bill == bill && r.status == Upcoming && AtMost(today, r.dueDate)
    && r.dateOverride.None? && r.amountOverride.None? && r.linkedTxn.None? && r.markedPaidAt.None?
  }

  /** What a pass leaves out: no date or rhythm to go by, an account that is gone, or a card with no statement to pay. */
  predicate LeftOut(b: Bill) {
    || b.nextExpected.None? || b.cadence.None? || b.destination == Missing
    || match b.destination
       case Credit(CardStatement(Some(_), Some(balance))) => balance <= 0
       case Credit(_) => true
       case _ => false
  }

  /** Just these bills are left out, and a pass over one changes nothing. */
  lemma LeavesOut(l: Ledger, b: Bill, today: Day, months: int, reschedule: bool)
    ensures LeftOut(b) <==> !b.Materializes()
    ensures LeftOut(b) ==> MaterializeBill(l, b, today, months, reschedule) == Some(l)
  {
  }

  lemma ExpectedIsUntouched(r: Occurrence, bill: nat, today: Day)
    ensures Expected(r, bill, today) <==> r.bill == bill && Untouched(r, today)
  {
  }

  /**
   After any pass over a bill that is not a card's, if its cadence is not monthly, or the pass reschedules it, or a
   retired row is waiting, every expected payment of the bill stands on a planned date: none of an old schedule is
   left to be due beside the new one.
   */
  lemma NoOldScheduleLeft(l: Ledger, b: Bill, today: Day, months: int, reschedule: bool)
    requires Inv(l) && b.Materializes() && !b.Card()
    requires !b.cadence.value.Monthly? || reschedule || exists i :: i in l.rows && l.rows[i].bill == b.id && l.rows[i].key.Retired?
    ensures var after := MaterializeBill(l, b, today, months, reschedule);
            after.Some? && forall i :: i in after.value.rows && Expected(after.value.rows[i], b.id, today) ==>
              after.value.rows[i].dueDate in PlannedDates(l.rows, b, today, months)
  {
    var dates := PlannedDates(l.rows, b, today, months);
    PlannedDatesAreSchedule(l.rows, b, today, months);
    hide PlannedDates, Inv, Schedule, Realign, Ordinary, Realigned, OnlyBill, Expected, Untouched;
    if Realigns(l.rows, b, today, dates, reschedule) {
      RealignLeaves(l, b, today, dates);
      var after := Realign(l, b, today, dates).value;
      forall i | i in after.rows && Expected(after.rows[i], b.id, today)
        ensures after.rows[i].dueDate in dates
      {
        ExpectedIsUntouched(after.rows[i], b.id, today);
        UntouchedIsPlanned(l, b, today, dates, after, i);
      }
    } else {
      OrdinaryLeavesExpected(l, b, today, dates, reschedule);
    }
  }

  lemma OrdinaryLeavesExpected(l: Ledger, b: Bill, today: Day, dates: seq<Day>, reschedule: bool)
    requires Inv(l) && b.Materializes() && !b.Card() && Schedule(dates, b.cadence.value)
    requires !b.cadence.value.Monthly? || reschedule || exists i :: i in l.rows && l.rows[i].bill == b.id && l.rows[i].key.Retired?
    requires !Realigns(l.rows, b, today, dates, reschedule)
    ensures var after := Ordinary(l, b, dates);
            after.Some? && forall i :: i in after.value.rows && Expected(after.value.rows[i], b.id, today) ==> after.value.rows[i].dueDate in dates
  {
    var cadence := b.cadence.value;
    var allowed := NonCollidingScheduleDates(l.rows, b.id, cadence, WithinEnd(b, dates));
    assert !b.cadence.value.Monthly?;
    OrdinarySafe(l, b, dates);
    OrdinaryFilled(l, b, dates);
    hide Inv, Schedule, ScheduleKey, Ordinary, NonCollidingScheduleDates, WithinEnd;
    OrdinaryKeepsStatus(l, b, dates);
    var after := Ordinary(l, b, dates).value;
    forall i | i in after.rows && Expected(after.rows[i], b.id, today)
      ensures after.rows[i].dueDate in dates
    {
      if i in l.rows {
        assert FilledRow(l.rows[i], after.rows[i], b.id, cadence, allowed);
        assert SameButSchedule(l.rows[i], after.rows[i]);
      }
    }
  }

  /**
   The other half. When the expected payments of a bill already stand on planned dates, or its cadence is monthly, or
   it is a card's, no retired row is waiting and the pass does not reschedule, then it retires no row: every row
   keeps its key, and the pass cancels nothing.
   */
  lemma ScheduleStays(l: Ledger, b: Bill, today: Day, months: int)
    requires Inv(l) && b.Materializes()
    requires forall i :: i in l.rows && l.rows[i].bill == b.id ==> !l.rows[i].key.Retired?
    requires b.Card() || b.cadence.value.Monthly?
             || forall i :: i in l.rows && Expected(l.rows[i], b.id, today) ==> l.rows[i].dueDate in PlannedDates(l.rows, b, today, months)
    ensures var after := MaterializeBill(l, b, today, months, false);
            after.Some? && forall i :: i in l.rows ==>
              && i in after.value.rows && after.value.rows[i].key == l.rows[i].key
              && (after.value.rows[i].status == l.rows[i].status
                  || (b.Card() && l.rows[i].status == Cancelled && after.value.rows[i].status == Upcoming))
  {
    var dates := PlannedDates(l.rows, b, today, months);
    PlannedDatesAreSchedule(l.rows, b, today, months);
    hide PlannedDates, Inv, Schedule;
    assert !Realigns(l.rows, b, today, dates, false);
    hide Ordinary;
    OrdinaryKeepsKeys(l, b, dates);
  }

  lemma OrdinaryKeepsKeys(l: Ledger, b: Bill, dates: seq<Day>)
    requires Inv(l) && b.Materializes() && Schedule(dates, b.cadence.value)
    ensures var after := Ordinary(l, b, dates);
            after.Some? && forall i :: i in l.rows ==>
              && i in after.value.rows && after.value.rows[i].key == l.rows[i].key
              && (after.value.rows[i].status == l.rows[i].status
                  || (b.Card() && l.rows[i].status == Cancelled && after.value.rows[i].status == Upcoming))
  {
    var cadence, within := b.cadence.value, WithinEnd(b, dates);
    var allowed := NonCollidingScheduleDates(l.rows, b.id, cadence, within);
    FilterKeepsSchedule(dates, (d: Day) => !Ended(b, d), cadence);
    FilterKeepsSchedule(within, (d: Day) => NonColliding(l.rows, b.id, cadence, d), cadence);
    forall d | d in allowed
      ensures Fits(l.rows, b.id, cadence, d)
    {
      assert NonColliding(l.rows, b.id, cadence, d);
    }
    hide Inv, Schedule, ScheduleKey, NonColliding, Fill, Fits, RevivedFirst, Revived, KeptRow, AddedRow, Holds, RevivedBy;
    FillInserts(l, b, allowed);
    var revived, after := RevivedFirst(l, b, allowed), Fill(l, b, allowed).value;
    RevivedFirstKeys(l, b, allowed);
    forall i | i in l.rows
      ensures i in after.rows && after.rows[i].key == l.rows[i].key
      ensures after.rows[i].status == l.rows[i].status || (b.Card() && l.rows[i].status == Cancelled && after.rows[i].status == Upcoming)
    {
      assert i in revived.rows;
      KeptKeepsKey(l, after, b, allowed, i);
    }
  }

  lemma KeptKeepsKey(l: Ledger, after: Ledger, b: Bill, dates: seq<Day>, i: nat)
    requires b.Materializes() && i in l.rows && KeptRow(RevivedFirst(l, b, dates), after, b.id, b.cadence.value, dates, b.Amount(), i)
    ensures i in after.rows && after.rows[i].key == l.rows[i].key
    ensures after.rows[i].status == l.rows[i].status || (b.Card() && l.rows[i].status == Cancelled && after.rows[i].status == Upcoming)
  {
    RevivedFirstRow(l, b, dates, i);
    RevivedNeeds(b, l.rows[i], dates);
    hide ScheduleKey, RevivedFirst, RevivedBy;
  }

  // --------------------------------------------------------------- the payments a pass leaves due

  /** The row for this date: under the key the cadence gives it. */
  predicate IsRowOf(r: Occurrence, b: Bill, d: Day)
    requires b.Materializes()
  {
    r.bill == b.id && r.key == if b.cadence.value.Monthly? then MonthKey(d.y, d.m) else DateKey(d)
  }

  predicate StandsOn(r: Occurrence, b: Bill, d: Day) {
    r.bill == b.id && (r.dueDate == d || r.dateOverride == Some(d))
  }

  /** A date the pass may plan a payment for. */
  predicate Wanted(b: Bill, dates: seq<Day>, d: Day) {
    d in dates && (b.endDate.None? || AtMost(d, b.endDate.value))
  }

  /** What the bill costs: a card's statement balance, else the average amount. */
  predicate Costs(b: Bill, amount: int) {
    amount == if b.destination.Credit? && b.destination.card.balance.Some? then b.destination.card.balance.value else b.avgAmount
  }

  lemma WantedIsWithin(b: Bill, dates: seq<Day>, d: Day)
    ensures Wanted(b, dates, d) <==> d in WithinEnd(b, dates)
  {
  }

  lemma KeyIsRowOf(r: Occurrence, b: Bill, d: Day)
    requires b.Materializes()
    ensures IsRowOf(r, b, d) <==> r.bill == b.id && r.key == ScheduleKey(b.cadence.value, d)
  {
  }

  /** No planned payment is forgotten: a wanted date from today on has its own row, or a row of the bill stands on it. */
  lemma NoDateForgotten(l: Ledger, b: Bill, today: Day, months: int, reschedule: bool, d: Day)
    requires Inv(l) && b.Materializes() && Wanted(b, PlannedDates(l.rows, b, today, months), d) && AtMost(today, d)
    ensures var after := MaterializeBill(l, b, today, months, reschedule);
            after.Some? && exists i :: i in after.value.rows && (IsRowOf(after.value.rows[i], b, d) || StandsOn(after.value.rows[i], b, d))
  {
    var dates := PlannedDates(l.rows, b, today, months);
    PlannedDatesAreSchedule(l.rows, b, today, months);
    WantedIsWithin(b, dates, d);
    hide PlannedDates, Inv, Schedule, Realign, Ordinary, WithinEnd, Wanted, IsRowOf, StandsOn;
    if Realigns(l.rows, b, today, dates, reschedule) {
      RealignForgetsNone(l, b, today, dates, d);
    } else {
      OrdinaryForgetsNone(l, b, dates, d);
    }
  }

  lemma HeldHasRow(rows: Rows, b: Bill, d: Day)
    requires b.Materializes() && BillOccurrencesRepository.Holds(rows, b.id, ScheduleKey(b.cadence.value, d))
    ensures exists i :: i in rows && IsRowOf(rows[i], b, d)
  {
    var i :| i in rows && rows[i].bill == b.id && rows[i].key == ScheduleKey(b.cadence.value, d);
    KeyIsRowOf(rows[i], b, d);
  }

  lemma OrdinaryForgetsNone(l: Ledger, b: Bill, dates: seq<Day>, d: Day)
    requires Inv(l) && b.Materializes() && Schedule(dates, b.cadence.value) && d in WithinEnd(b, dates)
    ensures var after := Ordinary(l, b, dates);
            after.Some? && exists i :: i in after.value.rows && (IsRowOf(after.value.rows[i], b, d) || StandsOn(after.value.rows[i], b, d))
  {
    var cadence, within := b.cadence.value, WithinEnd(b, dates);
    var allowed := NonCollidingScheduleDates(l.rows, b.id, cadence, within);
    OrdinaryFill(l, b, dates);
    var after := Fill(l, b, allowed).value;
    if NonColliding(l.rows, b.id, cadence, d) {
      assert d in allowed;
      hide Inv, Schedule, ScheduleKey, Holds, KeptRow, AddedRow, NonColliding, Fill;
      FillInserts(l, b, allowed);
      HeldHasRow(after.rows, b, d);
    } else {
      FilterKeepsSchedule(dates, (d: Day) => !Ended(b, d), cadence);
      DifferentKeys(within, cadence);
      hide Inv, Schedule, ScheduleKey, Holds, Fill, WithinEnd, Filled;
      assert !NonColliding(after.rows, b.id, cadence, d) by { StillCollides(l, after, b, allowed, within, d); }
      var i :| i in after.rows && after.rows[i].bill == b.id && (after.rows[i].dueDate == d || after.rows[i].dateOverride == Some(d));
      assert StandsOn(after.rows[i], b, d);
    }
  }

  lemma StillCollides(l: Ledger, after: Ledger, b: Bill, allowed: seq<Day>, within: seq<Day>, d: Day)
    requires Inv(l) && b.Materializes() && Filled(l, after, b.id, b.cadence.value, allowed) && !NonColliding(l.rows, b.id, b.cadence.value, d)
    requires (forall e :: e in allowed ==> e in within) && d in within && Schedule(within, b.cadence.value)
    ensures !NonColliding(after.rows, b.id, b.cadence.value, d)
  {
    hide NonColliding, Filled, ScheduleKey, Schedule, RowsFit;
    forall e | e in allowed && e != d
      ensures ScheduleKey(b.cadence.value, e) != ScheduleKey(b.cadence.value, d)
    {
      if ScheduleKey(b.cadence.value, e) == ScheduleKey(b.cadence.value, d) { OneDateAKey(within, b.cadence.value, e, d); }
    }
    SameCollisions(l, after, b.id, b.cadence.value, allowed, d);
  }

  /** An ordinary pass fills the dates no other cycle stands on. */
  lemma OrdinaryFill(l: Ledger, b: Bill, dates: seq<Day>)
    requires Inv(l) && b.Materializes() && Schedule(dates, b.cadence.value)
    ensures var allowed := NonCollidingScheduleDates(l.rows, b.id, b.cadence.value, WithinEnd(b, dates));
            && Ordinary(l, b, dates) == Fill(l, b, allowed) && Fill(l, b, allowed).Some?
            && Schedule(allowed, b.cadence.value) && (forall d :: d in allowed ==> Fits(l.rows, b.id, b.cadence.value, d))
            && Filled(l, Fill(l, b, allowed).value, b.id, b.cadence.value, allowed)
  {
    var cadence, within := b.cadence.value, WithinEnd(b, dates);
    FilterKeepsSchedule(dates, (d: Day) => !Ended(b, d), cadence);
    FilterKeepsSchedule(within, (d: Day) => NonColliding(l.rows, b.id, cadence, d), cadence);
    hide Inv, Schedule, ScheduleKey, Fill, Filled, Fits;
    forall d | d in NonCollidingScheduleDates(l.rows, b.id, cadence, within)
      ensures Fits(l.rows, b.id, cadence, d)
    {
      assert NonColliding(l.rows, b.id, cadence, d);
      ApartFits(l.rows, b, d);
    }
    FillFilled(l, b, NonCollidingScheduleDates(l.rows, b.id, cadence, within));
  }

  lemma ApartFits(rows: Rows, b: Bill, d: Day)
    requires b.Materializes() && NonColliding(rows, b.id, b.cadence.value, d)
    ensures Fits(rows, b.id, b.cadence.value, d)
  {
    hide ScheduleKey;
  }

  lemma RealignForgetsNone(l: Ledger, b: Bill, today: Day, dates: seq<Day>, d: Day)
    requires Inv(l) && b.Materializes() && Schedule(dates, b.cadence.value) && d in WithinEnd(b, dates) && AtMost(today, d)
    ensures var after := Realign(l, b, today, dates);
            after.Some? && exists i :: i in after.value.rows && (IsRowOf(after.value.rows[i], b, d) || StandsOn(after.value.rows[i], b, d))
  {
    RealignLeaves(l, b, today, dates);
    var after := Realign(l, b, today, dates).value;
    var retired, allowed := RetireFutureSchedule(l.rows, b.id, today), AllowedDates(l, b, today, dates);
    hide Inv, Schedule, RetireFutureSchedule, ScheduleKey, Holds, Realign, RealignedRow, RetiredRowOn, Protected;
    if d in allowed {
      HeldHasRow(after.rows, b, d);
    } else {
      assert !Safe(retired, b.id, b.cadence.value, today, d);
      var i :| i in retired && retired[i].bill == b.id && Protected(retired[i], today)
               && (retired[i].key == ScheduleKey(b.cadence.value, d) || retired[i].dueDate == d || retired[i].EffectiveDate() == d);
      RetireKeys(l.rows, b.id, today);
      RealignedOldRow(l, after, b, today, dates, i);
      ProtectedKeepsPlace(retired[i], b, today, allowed);
      KeyIsRowOf(after.rows[i], b, d);
      assert IsRowOf(after.rows[i], b, d) || StandsOn(after.rows[i], b, d);
    }
  }

  lemma ProtectedKeepsPlace(r: Occurrence, b: Bill, today: Day, allowed: seq<Day>)
    requires b.Materializes() && Protected(r, today)
    ensures var after := RealignedRow(r, b, today, allowed);
            after.bill == r.bill && after.key == r.key && after.dueDate == r.dueDate && after.dateOverride == r.dateOverride
  {
    hide RevivedBy;
  }

  /**
   An ordinary pass leaves, for each wanted date no other cycle of the bill stands on, exactly the row of the date;
   if it is open it is due on that date for what the bill costs, and if the pass added it nobody has touched it.
   */
  lemma OrdinarySets(l: Ledger, b: Bill, dates: seq<Day>, d: Day)
    requires Inv(l) && b.Materializes() && Schedule(dates, b.cadence.value) && Wanted(b, dates, d)
    requires forall i :: i in l.rows && StandsOn(l.rows[i], b, d) ==> IsRowOf(l.rows[i], b, d)
    ensures Ordinary(l, b, dates).Some?
    ensures var after := Ordinary(l, b, dates).value;
            && (exists i :: i in after.rows && IsRowOf(after.rows[i], b, d))
            && forall i :: i in after.rows && IsRowOf(after.rows[i], b, d) ==>
                 && (after.rows[i].Open() ==> after.rows[i].dueDate == d && Costs(b, after.rows[i].amount))
                 && (i !in l.rows ==> Expected(after.rows[i], b.id, d) && after.rows[i].NoPayment() && after.rows[i].paymentOverride.None?)
  {
    var cadence, allowed := b.cadence.value, NonCollidingScheduleDates(l.rows, b.id, b.cadence.value, WithinEnd(b, dates));
    WantedIsWithin(b, dates, d);
    assert NonColliding(l.rows, b.id, cadence, d) by {
      forall i | i in l.rows && l.rows[i].bill == b.id && (l.rows[i].dueDate == d || l.rows[i].dateOverride == Some(d))
        ensures l.rows[i].key == ScheduleKey(cadence, d)
      {
        KeyIsRowOf(l.rows[i], b, d);
        assert StandsOn(l.rows[i], b, d);
      }
    }
    assert d in allowed;
    OrdinaryFill(l, b, dates);
    hide Inv, Schedule, ScheduleKey, Holds, KeptRow, AddedRow, NonColliding, Fill, Filled, IsRowOf, WithinEnd, Fits, Expected, Costs, Ordinary, Wanted;
    FillInserts(l, b, allowed);
    var after := Fill(l, b, allowed).value;
    HeldHasRow(after.rows, b, d);
    forall i | i in after.rows && IsRowOf(after.rows[i], b, d)
      ensures after.rows[i].Open() ==> after.rows[i].dueDate == d && Costs(b, after.rows[i].amount)
      ensures i !in l.rows ==> Expected(after.rows[i], b.id, d) && after.rows[i].NoPayment() && after.rows[i].paymentOverride.None?
    {
      KeyIsRowOf(after.rows[i], b, d);
      RevivedFirstKeys(l, b, allowed);
      SetRow(RevivedFirst(l, b, allowed), after, b, allowed, i, d);
    }
  }

  lemma SetRow(l: Ledger, after: Ledger, b: Bill, allowed: seq<Day>, i: nat, d: Day)
    requires b.Materializes() && Schedule(allowed, b.cadence.value) && d in allowed
    requires Inserted(l, after, b.id, b.cadence.value, allowed, b.Amount())
    requires i in after.rows && after.rows[i].bill == b.id && after.rows[i].key == ScheduleKey(b.cadence.value, d)
    ensures after.rows[i].Open() ==> after.rows[i].dueDate == d && Costs(b, after.rows[i].amount)
    ensures i !in l.rows ==> Expected(after.rows[i], b.id, d) && after.rows[i].NoPayment() && after.rows[i].paymentOverride.None?
  {
    hide Schedule, ScheduleKey, Holds, KeptRow, Refresh, NewRow, Expected, Costs;
    if i in l.rows {
      assert KeptRow(l, after, b.id, b.cadence.value, allowed, b.Amount(), i);
      KeptIsSet(l, after, b, allowed, i, d);
    } else {
      assert AddedRow(l, after, b.id, b.cadence.value, allowed, b.Amount(), i);
      var e :| e in allowed && after.rows[i] == NewRow(b.id, ScheduleKey(b.cadence.value, e), e, b.Amount());
      NewRowKey(b.id, ScheduleKey(b.cadence.value, e), e, b.Amount());
      OneDateAKey(allowed, b.cadence.value, e, d);
      NewIsExpected(b, d);
    }
  }

  lemma KeptIsSet(l: Ledger, after: Ledger, b: Bill, allowed: seq<Day>, i: nat, d: Day)
    requires b.Materializes() && d in allowed && KeptRow(l, after, b.id, b.cadence.value, allowed, b.Amount(), i)
    requires after.rows[i].bill == b.id && after.rows[i].key == ScheduleKey(b.cadence.value, d)
    ensures after.rows[i].Open() ==> after.rows[i].dueDate == d && Costs(b, after.rows[i].amount)
  {
    hide ScheduleKey;
  }

  lemma NewIsExpected(b: Bill, d: Day)
    requires b.Materializes()
    ensures var r := NewRow(b.id, ScheduleKey(b.cadence.value, d), d, b.Amount());
            Expected(r, b.id, d) && r.NoPayment() && r.paymentOverride.None? && r.dueDate == d && Costs(b, r.amount)
  {
  }

  /** A realignment leaves, for each wanted date from today on that is safe, an untouched payment on that date for what the bill costs. */
  lemma RealignSets(l: Ledger, b: Bill, today: Day, dates: seq<Day>, d: Day)
    requires Inv(l) && b.Materializes() && Schedule(dates, b.cadence.value) && Wanted(b, dates, d) && AtMost(today, d)
    requires forall i :: i in l.rows && !Retirable(l.rows[i], b.id, today) ==>
               !IsRowOf(l.rows[i], b, d) && !StandsOn(l.rows[i], b, d)
    ensures Realign(l, b, today, dates).Some?
    ensures var after := Realign(l, b, today, dates).value;
            && (exists i :: i in after.rows && IsRowOf(after.rows[i], b, d))
            && forall i :: i in after.rows && IsRowOf(after.rows[i], b, d) ==>
                 Expected(after.rows[i], b.id, today) && after.rows[i].dueDate == d && Costs(b, after.rows[i].amount) && after.rows[i].NoPayment()
  {
    RealignLeaves(l, b, today, dates);
    var after := Realign(l, b, today, dates).value;
    WantedIsWithin(b, dates, d);
    FreeIsAllowed(l, b, today, dates, d);
    hide Inv, Schedule, ScheduleKey, Holds, AllowedDates, Realign, RealignedRow, RetireFutureSchedule, RetiredRowOn, IsRowOf, Wanted;
    HeldHasRow(after.rows, b, d);
    forall i | i in after.rows && IsRowOf(after.rows[i], b, d)
      ensures Expected(after.rows[i], b.id, today) && after.rows[i].dueDate == d && Costs(b, after.rows[i].amount) && after.rows[i].NoPayment()
    {
      KeyIsRowOf(after.rows[i], b, d);
      HolderIsOnDate(l, b, today, dates, after, d, i);
    }
  }

  lemma FreeIsAllowed(l: Ledger, b: Bill, today: Day, dates: seq<Day>, d: Day)
    requires Inv(l) && b.Materializes() && d in WithinEnd(b, dates) && AtMost(today, d)
    requires forall i :: i in l.rows && !Retirable(l.rows[i], b.id, today) ==>
               !IsRowOf(l.rows[i], b, d) && !StandsOn(l.rows[i], b, d)
    ensures d in AllowedDates(l, b, today, dates)
  {
    var retired := RetireFutureSchedule(l.rows, b.id, today);
    RetireKeys(l.rows, b.id, today);
    forall i | i in retired && retired[i].bill == b.id && Protected(retired[i], today)
      ensures retired[i].key != ScheduleKey(b.cadence.value, d) && retired[i].dueDate != d && retired[i].EffectiveDate() != d
    {
      RetiredOrProtected(l, b.id, today, i);
      KeyIsRowOf(l.rows[i], b, d);
    }
    hide Inv, RetireFutureSchedule, Protected, ScheduleKey;
    assert Safe(retired, b.id, b.cadence.value, today, d);
  }
}
