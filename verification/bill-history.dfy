/** What a run can and cannot undo: skipped stays skipped, and paid stays paid until the user unlinks it. */
module BillHistory {
  import opened Wrappers
  import opened Calendar
  import opened Occurrences
  import opened BillSchedule
  import opened BillOccurrencesRepository
  import opened BillLifecycle
  import opened BillMaterialization
  import opened BillMaterializationProofs
  import opened BillProtection
  import opened BillRealignment

  /** The statuses a schedule no longer decides about. */
  predicate Decided(r: Occurrence) {
    r.status in {Paid, Processing, Skipped}
  }

  /** Filling dates leaves a decided row alone, whether or not a date has its key. */
  lemma FillKeepsDecided(l: Ledger, b: BillMaterialization.Bill, dates: seq<Day>, i: nat)
    requires Inv(l) && b.Materializes() && Schedule(dates, b.cadence.value) && i in l.rows && Decided(l.rows[i])
    requires forall d :: d in dates ==> Fits(l.rows, b.id, b.cadence.value, d)
    ensures var after := Fill(l, b, dates);
            after.Some? && i in after.value.rows && after.value.rows[i] == l.rows[i]
  {
    hide Inv, Schedule, ScheduleKey, Fits, Inserted, Revived, RevivedFirst, Fill, RevivedBy;
    FillInserts(l, b, dates);
    RevivedFirstRow(l, b, dates, i);
    RevivedNeeds(b, l.rows[i], dates);
    InsertKeepsDecided(RevivedFirst(l, b, dates), Fill(l, b, dates).value, b.id, b.cadence.value, dates, b.Amount(), i);
  }

  lemma InsertKeepsDecided(l: Ledger, after: Ledger, bill: nat, cadence: Cadence, dates: seq<Day>, amount: int, i: nat)
    requires Inserted(l, after, bill, cadence, dates, amount) && i in l.rows && Decided(l.rows[i])
    ensures i in after.rows && after.rows[i] == l.rows[i]
  {
    hide ScheduleKey, Holds;
    assert KeptRow(l, after, bill, cadence, dates, amount, i);
  }

  lemma OrdinaryKeepsDecided(l: Ledger, b: BillMaterialization.Bill, dates: seq<Day>, i: nat)
    requires Inv(l) && b.Materializes() && Schedule(dates, b.cadence.value) && i in l.rows && Decided(l.rows[i])
    ensures var after := Ordinary(l, b, dates);
            after.Some? && i in after.value.rows && after.value.rows[i] == l.rows[i]
  {
    var cadence := b.cadence.value;
    var within := WithinEnd(b, dates);
    FilterKeepsSchedule(dates, (d: Day) => !Ended(b, d), cadence);
    FilterKeepsSchedule(within, (d: Day) => NonColliding(l.rows, b.id, cadence, d), cadence);
    hide ScheduleKey, Schedule, Inv, Fill;
    FillKeepsDecided(l, b, NonCollidingScheduleDates(l.rows, b.id, cadence, within), i);
  }

  /** Materialising any bill leaves every paid, processing and skipped row exactly as it was. */
  lemma MaterializeKeepsDecided(l: Ledger, b: BillMaterialization.Bill, today: Day, months: int, reschedule: bool, i: nat)
    requires Inv(l) && i in l.rows && Decided(l.rows[i])
    ensures var after := MaterializeBill(l, b, today, months, reschedule);
            after.Some? && i in after.value.rows && after.value.rows[i] == l.rows[i]
  {
    MaterializeSafe(l, b, today, months, reschedule);
    if b.Materializes() && l.rows[i].bill == b.id {
      var dates := PlannedDates(l.rows, b, today, months);
      PlannedDatesAreSchedule(l.rows, b, today, months);
      hide Inv, Schedule, Realigns, PlannedDates, Realign, Ordinary, OnlyBill;
      OrdinaryKeepsDecided(l, b, dates, i);
      ProtectedRowsStay(l, b, today, dates, i);
      RevivedNeeds(b, l.rows[i], AllowedDates(l, b, today, dates));
    } else {
      hide Inv, MaterializeBill;
    }
  }

  /** No step brings a skipped occurrence back or touches it. */
  lemma SkippedStays(l: Ledger, step: Step, i: nat)
    requires Inv(l) && i in l.rows && l.rows[i].status == Skipped
    ensures i in Apply(l, step).rows && Apply(l, step).rows[i] == l.rows[i]
  {
    if step.DoMaterialize? {
      MaterializeKeepsDecided(l, step.setup, step.today, step.months, step.reschedule, i);
    }
    hide Inv, MaterializeBill;
  }

  /** Skipped is for good: after any further run the row is the same. */
  lemma {:induction false} SkippedForever(l: Ledger, steps: seq<Step>, i: nat)
    requires Inv(l) && i in l.rows && l.rows[i].status == Skipped
    ensures i in Run(l, steps).rows && Run(l, steps).rows[i] == l.rows[i]
  {
    if steps != [] {
      hide Inv, Apply;
      SkippedForever(l, steps[..|steps| - 1], i);
      RunKeepsInv(l, steps[..|steps| - 1]);
      SkippedStays(Run(l, steps[..|steps| - 1]), steps[|steps| - 1], i);
    }
  }

  /** A paid occurrence keeps its payment through every step but the user's own unlinking or relinking of it. */
  lemma PaidStays(l: Ledger, step: Step, i: nat)
    requires Inv(l) && i in l.rows && l.rows[i].status == Paid
    requires !(step.DoUnlink? && step.id == i) && !(step.DoLink? && step.id == i)
    ensures i in Apply(l, step).rows && Apply(l, step).rows[i] == l.rows[i]
  {
    if step.DoMaterialize? {
      MaterializeKeepsDecided(l, step.setup, step.today, step.months, step.reschedule, i);
    }
    hide Inv, MaterializeBill;
  }

  predicate Leaves(steps: seq<Step>, i: nat) {
    forall s :: s in steps ==> !(s.DoUnlink? && s.id == i) && !(s.DoLink? && s.id == i)
  }

  /** So over any run without such a step it is the same row. */
  lemma {:induction false} PaidUntilUnlinked(l: Ledger, steps: seq<Step>, i: nat)
    requires Inv(l) && i in l.rows && l.rows[i].status == Paid && Leaves(steps, i)
    ensures i in Run(l, steps).rows && Run(l, steps).rows[i] == l.rows[i]
  {
    if steps != [] {
      hide Inv, Apply;
      var front, last := steps[..|steps| - 1], steps[|steps| - 1];
      assert last in steps;
      PaidUntilUnlinked(l, front, i);
      RunKeepsInv(l, front);
      PaidStays(Run(l, front), last, i);
    }
  }
}
