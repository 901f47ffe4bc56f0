/** Materialising never meets a unique index, keeps the table's invariant, touches only its own bill, and filling repeats harmlessly. */
module BillMaterializationProofs {
  import opened Wrappers
  import opened Calendar
  import opened Occurrences
  import opened BillSchedule
  import opened BillOccurrencesRepository
  import opened BillMaterialization
  import opened RecurringEngine

  // --------------------------------------------------------------- reviving and filling

  /** Reviving changes statuses only, from cancelled to upcoming, under month keys of the given dates. */
  ghost predicate Revived(rows: Rows, after: Rows, bill: nat, dates: seq<Day>) {
    && after.Keys == rows.Keys
    && forall i :: i in rows ==> after[i] == rows[i] || RevivedRow(rows[i], after[i], bill, dates)
  }

  ghost predicate RevivedRow(r: Occurrence, after: Occurrence, bill: nat, dates: seq<Day>) {
    && r.bill == bill && r.status == Cancelled && after == r.(status := Upcoming) && r.dateOverride == None && r.amountOverride == None
    && exists d :: d in dates && r.key == MonthKey(d.y, d.m)
  }

  lemma {:induction false} ReviveAllKeepsInv(l: Ledger, bill: nat, dates: seq<Day>)
    requires Inv(l)
    ensures Inv(l.(rows := ReviveAll(l.rows, bill, dates)))
    ensures Revived(l.rows, ReviveAll(l.rows, bill, dates), bill, dates)
  {
    if dates != [] {
      hide Inv, RevivedRow, ReviveCancelled, Revived, ReviveAll;
      ReviveAllUnfold(l.rows, bill, dates);
      var front, d := dates[..|dates| - 1], dates[|dates| - 1];
      ReviveAllKeepsInv(l, bill, front);
      var before := ReviveAll(l.rows, bill, front);
      ReviveKeepsInv(l.(rows := before), bill, d.y, d.m);
      RevivedMore(l.rows, before, bill, front, d);
      assert dates == front + [d];
    } else {
      RevivedNone(l.rows, bill, dates);
    }
  }

  lemma ReviveAllUnfold(rows: Rows, bill: nat, dates: seq<Day>)
    requires dates != []
    ensures var front, d := dates[..|dates| - 1], dates[|dates| - 1];
            ReviveAll(rows, bill, dates) == ReviveCancelled(ReviveAll(rows, bill, front), bill, d.y, d.m)
  {
  }

  lemma RevivedNone(rows: Rows, bill: nat, dates: seq<Day>)
    ensures Revived(rows, rows, bill, dates)
  {
  }

  lemma RevivedMore(rows: Rows, before: Rows, bill: nat, front: seq<Day>, d: Day)
    requires Revived(rows, before, bill, front)
    ensures Revived(rows, ReviveCancelled(before, bill, d.y, d.m), bill, front + [d])
  {
    hide ReviveCancelled, RevivedRow;
    var after := ReviveCancelled(before, bill, d.y, d.m);
    assert after.Keys == rows.Keys by { ReviveKeys(before, bill, d.y, d.m); }
    forall i | i in rows
      ensures after[i] == rows[i] || RevivedRow(rows[i], after[i], bill, front + [d])
    {
      RevivedOnce(rows, before, bill, front, d, i);
    }
  }

  lemma ReviveKeys(rows: Rows, bill: nat, y: int, m: int)
    ensures ReviveCancelled(rows, bill, y, m).Keys == rows.Keys
  {
  }

  lemma RevivedOnce(rows: Rows, before: Rows, bill: nat, front: seq<Day>, d: Day, i: nat)
    requires i in rows && Revived(rows, before, bill, front)
    ensures var after := ReviveCancelled(before, bill, d.y, d.m);
            i in after && (after[i] == rows[i] || RevivedRow(rows[i], after[i], bill, front + [d]))
  {
    var after := ReviveCancelled(before, bill, d.y, d.m);
    assert d in front + [d];
    if RevivedRow(rows[i], before[i], bill, front) {
      var e :| e in front && rows[i].key == MonthKey(e.y, e.m);
      assert e in front + [d];
    }
  }

  /** Only this bill's rows change, no row is lost, and no row's payment or override changes. */
  ghost predicate OnlyBill(l: Ledger, after: Ledger, bill: nat) {
    && after.rejected == l.rejected && l.nextId <= after.nextId
    && (forall i :: i in l.rows ==> i in after.rows && SameButSchedule(l.rows[i], after.rows[i])
                                     && (l.rows[i].bill != bill ==> after.rows[i] == l.rows[i]))
    && (forall i :: i in after.rows && i !in l.rows ==> after.rows[i].bill == bill)
  }

  predicate SameButSchedule(a: Occurrence, b: Occurrence) {
    && b.bill == a.bill && b.dateOverride == a.dateOverride && b.amountOverride == a.amountOverride
    && b.paymentOverride == a.paymentOverride && SamePayment(a, b)
  }

  /** A cancelled, untouched row under one of these months' keys. */
  predicate SomeRevives(r: Occurrence, bill: nat, dates: seq<Day>) {
    exists d :: d in dates && Revivable(r, bill, d.y, d.m)
  }

  /** The revive loop, row by row. */
  lemma {:induction false} ReviveAllRow(rows: Rows, bill: nat, dates: seq<Day>, i: nat)
    requires i in rows
    ensures var after := ReviveAll(rows, bill, dates);
            i in after && after[i] == if SomeRevives(rows[i], bill, dates) then rows[i].(status := Upcoming) else rows[i]
  {
    if dates != [] {
      var front, d := dates[..|dates| - 1], dates[|dates| - 1];
      ReviveAllRow(rows, bill, front, i);
      assert dates == front + [d];
      assert d in dates;
      if SomeRevives(rows[i], bill, front) {
        var e :| e in front && Revivable(rows[i], bill, e.y, e.m);
        assert e in dates;
      }
    }
  }

  /** A card's revive step brings this row back: it is cancelled, untouched, and keyed by the month of one of the dates. */
  predicate RevivedBy(b: Bill, r: Occurrence, dates: seq<Day>) {
    b.Card() && SomeRevives(r, b.id, dates)
  }

  /** The table a fill inserts into. */
  function RevivedFirst(l: Ledger, b: Bill, dates: seq<Day>): Ledger {
    if b.Card() then l.(rows := ReviveAll(l.rows, b.id, dates)) else l
  }

  function RevivedAs(b: Bill, r: Occurrence, dates: seq<Day>): Occurrence {
    if RevivedBy(b, r, dates) then r.(status := Upcoming) else r
  }

  lemma RevivedFirstRow(l: Ledger, b: Bill, dates: seq<Day>, i: nat)
    requires i in l.rows
    ensures i in RevivedFirst(l, b, dates).rows && RevivedFirst(l, b, dates).rows[i] == RevivedAs(b, l.rows[i], dates)
  {
    hide SomeRevives, ReviveAll;
    ReviveAllRow(l.rows, b.id, dates, i);
  }

  lemma RevivedFirstKeys(l: Ledger, b: Bill, dates: seq<Day>)
    ensures RevivedFirst(l, b, dates).rows.Keys == l.rows.Keys
  {
    hide ReviveAll;
    ReviveAllKeys(l.rows, b.id, dates);
  }

  /** A fill is a revive, for a card, and then an insert, also when there is no date to fill. */
  lemma FillIsInsert(l: Ledger, b: Bill, dates: seq<Day>)
    requires b.Materializes()
    ensures Fill(l, b, dates) == InsertOccurrences(RevivedFirst(l, b, dates), b.id, b.cadence.value, dates, b.Amount())
  {
  }

  /** Filling dates that fit meets no unique index and does exactly what the insert does. */
  lemma FillInserts(l: Ledger, b: Bill, dates: seq<Day>)
    requires Inv(l) && b.Materializes() && Schedule(dates, b.cadence.value)
    requires forall d :: d in dates ==> Fits(l.rows, b.id, b.cadence.value, d)
    ensures var revived, r := RevivedFirst(l, b, dates), Fill(l, b, dates);
            && Inv(revived) && (if b.Card() then Revived(l.rows, revived.rows, b.id, dates) else revived == l)
            && r.Some? && Inv(r.value) && Inserted(revived, r.value, b.id, b.cadence.value, dates, b.Amount())
  {
    hide Inv, Schedule, ScheduleKey, Fits, Revived, Inserted, ReviveAll, Fill;
    FillIsInsert(l, b, dates);
    var revived := RevivedFirst(l, b, dates);
    ReviveAllKeepsInv(l, b.id, dates);
    forall d | d in dates
      ensures Fits(revived.rows, b.id, b.cadence.value, d)
    {
      if b.Card() { FitsRevived(l.rows, revived.rows, b.id, b.cadence.value, dates, d); }
    }
    InsertSucceeds(revived, b.id, b.cadence.value, dates, b.Amount());
  }

  lemma FillSafe(l: Ledger, b: Bill, dates: seq<Day>)
    requires Inv(l) && b.Materializes() && Schedule(dates, b.cadence.value)
    requires forall d :: d in dates ==> Fits(l.rows, b.id, b.cadence.value, d)
    ensures var r := Fill(l, b, dates);
            r.Some? && Inv(r.value) && OnlyBill(l, r.value, b.id)
  {
    hide Inv, Schedule, ScheduleKey, Fits, OnlyBill, Revived, Inserted, ReviveAll, Fill;
    FillInserts(l, b, dates);
    var revived, after := RevivedFirst(l, b, dates), Fill(l, b, dates).value;
    InsertedOnlyBill(revived, after, b.id, b.cadence.value, dates, b.Amount());
    if b.Card() {
      RevivedOnlyBill(l, revived.rows, b.id, dates);
      OnlyBillTransitive(l, revived, after, b.id);
    }
  }

  lemma FitsRevived(rows: Rows, after: Rows, bill: nat, cadence: Cadence, dates: seq<Day>, d: Day)
    requires Revived(rows, after, bill, dates) && Fits(rows, bill, cadence, d)
    ensures Fits(after, bill, cadence, d)
  {
    hide ScheduleKey;
  }

  lemma OnlyBillTransitive(l: Ledger, mid: Ledger, after: Ledger, bill: nat)
    requires OnlyBill(l, mid, bill) && OnlyBill(mid, after, bill)
    ensures OnlyBill(l, after, bill)
  {
  }

  lemma RevivedOnlyBill(l: Ledger, after: Rows, bill: nat, dates: seq<Day>)
    requires Revived(l.rows, after, bill, dates)
    ensures OnlyBill(l, l.(rows := after), bill)
  {
  }

  lemma InsertedOnlyBill(l: Ledger, after: Ledger, bill: nat, cadence: Cadence, dates: seq<Day>, amount: int)
    requires Inserted(l, after, bill, cadence, dates, amount)
    ensures OnlyBill(l, after, bill)
  {
    hide ScheduleKey, Holds;
    forall i | i in l.rows
      ensures i in after.rows && SameButSchedule(l.rows[i], after.rows[i]) && (l.rows[i].bill != bill ==> after.rows[i] == l.rows[i])
    {
      assert KeptRow(l, after, bill, cadence, dates, amount, i);
    }
    forall i | i in after.rows && i !in l.rows
      ensures after.rows[i].bill == bill
    {
      assert AddedRow(l, after, bill, cadence, dates, amount, i);
    }
  }

  // --------------------------------------------------------------- the two branches are safe

  lemma OrdinarySafe(l: Ledger, b: Bill, dates: seq<Day>)
    requires Inv(l) && b.Materializes() && Schedule(dates, b.cadence.value)
    ensures var r := Ordinary(l, b, dates);
            r.Some? && Inv(r.value) && OnlyBill(l, r.value, b.id)
  {
    var cadence := b.cadence.value;
    var within := WithinEnd(b, dates);
    FilterKeepsSchedule(dates, (d: Day) => !Ended(b, d), cadence);
    FilterKeepsSchedule(within, (d: Day) => NonColliding(l.rows, b.id, cadence, d), cadence);
    hide ScheduleKey, Schedule, Inv;
    FillSafe(l, b, NonCollidingScheduleDates(l.rows, b.id, cadence, within));
  }

  /** The rows of a realignment before the insert. */
  lemma AdoptionOf(l: Ledger, b: Bill, today: Day, dates: seq<Day>)
    requires Inv(l) && b.Materializes() && Schedule(dates, b.cadence.value)
    ensures var retired := RetireFutureSchedule(l.rows, b.id, today);
            var allowed := RealignDates(retired, b, today, dates);
            var adopted := AdoptAll(retired, b.id, b.cadence.value, DateSet(allowed), b.avgAmount);
            && Schedule(allowed, b.cadence.value)
            && AdoptDates(retired, b.id, b.cadence.value, Reusable(retired, b, allowed), b.avgAmount) == Some(adopted)
            && Inv(l.(rows := adopted))
            && (forall d :: d in allowed ==> Fits(adopted, b.id, b.cadence.value, d))
  {
    var cadence := b.cadence.value;
    var retired := RetireFutureSchedule(l.rows, b.id, today);
    var m := l.(rows := retired);
    var allowed := RealignDates(retired, b, today, dates);
    var reusable := Reusable(retired, b, allowed);
    RealignDatesSchedule(retired, b, today, dates);
    FilterKeepsSchedule(allowed, (d: Day) => RetiredRowOn(retired, b.id, d), cadence);
    RetireKeepsInv(l, b.id, today);
    forall i | i in retired && retired[i].bill == b.id && !Protected(retired[i], today)
      ensures Adoptable(retired[i], b.id)
    {
      RetiredOrProtected(l, b.id, today, i);
    }
    hide Inv, Protected, ScheduleKey, Schedule, Safe, RetireFutureSchedule;
    AdoptDatesSucceeds(m, b.id, cadence, today, reusable, b.avgAmount);
    ReusableSuffices(retired, b, allowed);
    DifferentKeys(allowed, cadence);
    AdoptKeepsInv(m, b.id, cadence, today, DateSet(allowed), b.avgAmount);
    forall d | d in allowed
      ensures Fits(AdoptAll(retired, b.id, cadence, DateSet(allowed), b.avgAmount), b.id, cadence, d)
    {
      AdoptedFits(retired, b, today, allowed, d);
    }
  }

  lemma RealignDatesSchedule(retired: Rows, b: Bill, today: Day, dates: seq<Day>)
    requires b.Materializes() && Schedule(dates, b.cadence.value)
    ensures Schedule(RealignDates(retired, b, today, dates), b.cadence.value)
    ensures forall d :: d in RealignDates(retired, b, today, dates) ==> Safe(retired, b.id, b.cadence.value, today, d) && !Before(d, today)
  {
    hide Safe, ScheduleKey;
    FilterKeepsSchedule(dates, (d: Day) => !Ended(b, d), b.cadence.value);
    FilterKeepsSchedule(WithinEnd(b, dates), (d: Day) => !Before(d, today), b.cadence.value);
    FilterKeepsSchedule(NotPast(WithinEnd(b, dates), today), (d: Day) => Safe(retired, b.id, b.cadence.value, today, d), b.cadence.value);
  }

  lemma DifferentKeys(dates: seq<Day>, cadence: Cadence)
    requires Schedule(dates, cadence)
    ensures forall d, e :: d in DateSet(dates) && e in DateSet(dates) && d != e ==> ScheduleKey(cadence, d) != ScheduleKey(cadence, e)
    ensures forall d :: d in DateSet(dates) <==> d in dates
  {
    if dates != [] { ScheduleSet(dates, cadence); }
  }

  /** Adopting every allowed date is the same as adopting those a retired row stands on. */
  lemma ReusableSuffices(retired: Rows, b: Bill, allowed: seq<Day>)
    requires b.Materializes()
    ensures AdoptAll(retired, b.id, b.cadence.value, DateSet(Reusable(retired, b, allowed)), b.avgAmount)
            == AdoptAll(retired, b.id, b.cadence.value, DateSet(allowed), b.avgAmount)
  {
    forall i | i in retired && Adoptable(retired[i], b.id)
      ensures retired[i].dueDate in DateSet(Reusable(retired, b, allowed)) <==> retired[i].dueDate in DateSet(allowed)
    {
    }
  }

  lemma AdoptedFits(retired: Rows, b: Bill, today: Day, allowed: seq<Day>, d: Day)
    requires b.Materializes() && d in allowed && Safe(retired, b.id, b.cadence.value, today, d)
    requires forall i :: i in retired && retired[i].bill == b.id && !Protected(retired[i], today) ==> Adoptable(retired[i], b.id)
    ensures Fits(AdoptAll(retired, b.id, b.cadence.value, DateSet(allowed), b.avgAmount), b.id, b.cadence.value, d)
  {
    hide Protected, ScheduleKey;
  }

  lemma RealignSafe(l: Ledger, b: Bill, today: Day, dates: seq<Day>)
    requires Inv(l) && b.Materializes() && Schedule(dates, b.cadence.value)
    ensures var r := Realign(l, b, today, dates);
            r.Some? && Inv(r.value) && OnlyBill(l, r.value, b.id)
  {
    var cadence := b.cadence.value;
    var retired := RetireFutureSchedule(l.rows, b.id, today);
    var allowed := RealignDates(retired, b, today, dates);
    var adopted := AdoptAll(retired, b.id, cadence, DateSet(allowed), b.avgAmount);
    AdoptionOf(l, b, today, dates);
    hide Schedule, ScheduleKey, Inv, RealignDates, Fits, Fill, OnlyBill, AdoptDates;
    FillSafe(l.(rows := adopted), b, allowed);
    AdoptedOnlyBill(l, b, today, allowed);
    OnlyBillTransitive(l, l.(rows := adopted), Fill(l.(rows := adopted), b, allowed).value, b.id);
  }

  lemma AdoptedOnlyBill(l: Ledger, b: Bill, today: Day, allowed: seq<Day>)
    requires b.Materializes()
    ensures OnlyBill(l, l.(rows := AdoptAll(RetireFutureSchedule(l.rows, b.id, today), b.id, b.cadence.value, DateSet(allowed), b.avgAmount)), b.id)
  {
    hide OnlyBill, AdoptAll, RetireFutureSchedule;
    var retired := l.(rows := RetireFutureSchedule(l.rows, b.id, today));
    RetireOnlyBill(l, b.id, today);
    AdoptOnlyBill(retired, b.id, b.cadence.value, DateSet(allowed), b.avgAmount);
    OnlyBillTransitive(l, retired, retired.(rows := AdoptAll(retired.rows, b.id, b.cadence.value, DateSet(allowed), b.avgAmount)), b.id);
  }

  lemma RetireOnlyBill(l: Ledger, bill: nat, today: Day)
    ensures OnlyBill(l, l.(rows := RetireFutureSchedule(l.rows, bill, today)), bill)
  {
    forall i | i in l.rows
      ensures var after := RetireRow(i, l.rows[i], bill, today);
              SameButSchedule(l.rows[i], after) && (l.rows[i].bill != bill ==> after == l.rows[i])
    {
    }
    hide RetireRow, SameButSchedule;
  }

  lemma AdoptOnlyBill(l: Ledger, bill: nat, cadence: Cadence, dates: set<Day>, amount: int)
    ensures OnlyBill(l, l.(rows := AdoptAll(l.rows, bill, cadence, dates, amount)), bill)
  {
    forall i | i in l.rows
      ensures var after := AdoptRow(l.rows[i], bill, cadence, dates, amount);
              SameButSchedule(l.rows[i], after) && (l.rows[i].bill != bill ==> after == l.rows[i])
    {
    }
    hide AdoptRow, SameButSchedule;
  }

  /**
   Materialising one bill, from any table satisfying the invariant: the database never reports a duplicate, so
   no two occurrences of a bill ever share a key or a baseline date; nothing outside the bill changes, no row is
   lost, and no payment or override is touched.
   */
  lemma MaterializeSafe(l: Ledger, b: Bill, today: Day, months: int, reschedule: bool)
    requires Inv(l)
    ensures var r := MaterializeBill(l, b, today, months, reschedule);
            r.Some? && Inv(r.value) && OnlyBill(l, r.value, b.id)
  {
    if b.Materializes() {
      var dates := PlannedDates(l.rows, b, today, months);
      PlannedDatesAreSchedule(l.rows, b, today, months);
      hide Inv, Schedule, Realigns, PlannedDates, Realign, Ordinary;
      OrdinarySafe(l, b, dates);
      RealignSafe(l, b, today, dates);
    }
  }

  // --------------------------------------------------------------- filling again

  lemma {:induction false} InsertNextId(l: Ledger, bill: nat, cadence: Cadence, dates: seq<Day>, amount: int)
    ensures var r := InsertOccurrences(l, bill, cadence, dates, amount);
            r.Some? ==> l.nextId <= r.value.nextId && (r.value.nextId == l.nextId || l.nextId in r.value.rows)
  {
    if dates != [] {
      hide Unique;
      InsertNextId(l, bill, cadence, dates[..|dates| - 1], amount);
    }
  }

  /** Where the rows of the bill stand after a fill: on their old date, or on the date that names their key. */
  ghost predicate Filled(l: Ledger, after: Ledger, bill: nat, cadence: Cadence, dates: seq<Day>) {
    && (forall i :: i in l.rows ==> i in after.rows && FilledRow(l.rows[i], after.rows[i], bill, cadence, dates))
    && (forall i :: i in after.rows && i !in l.rows ==>
          exists d :: d in dates && after.rows[i].key == ScheduleKey(cadence, d) && after.rows[i].dueDate == d && after.rows[i].dateOverride == None)
  }

  ghost predicate FilledRow(r: Occurrence, after: Occurrence, bill: nat, cadence: Cadence, dates: seq<Day>) {
    && after.bill == r.bill && after.key == r.key && after.dateOverride == r.dateOverride
    && (after.dueDate == r.dueDate || exists d :: d in dates && r.key == ScheduleKey(cadence, d) && after.dueDate == d)
  }

  lemma FillFilled(l: Ledger, b: Bill, dates: seq<Day>)
    requires Inv(l) && b.Materializes() && Schedule(dates, b.cadence.value)
    requires forall d :: d in dates ==> Fits(l.rows, b.id, b.cadence.value, d)
    ensures var r := Fill(l, b, dates);
            r.Some? && Filled(l, r.value, b.id, b.cadence.value, dates)
  {
    hide Inv, Schedule, ScheduleKey, Fits, Revived, Inserted, ReviveAll, Filled, Fill;
    FillInserts(l, b, dates);
    var revived, after := RevivedFirst(l, b, dates), Fill(l, b, dates).value;
    if b.Card() { RevivedFilled(l, revived, after, b.id, b.cadence.value, dates, b.Amount()); }
    else { InsertedFilled(l, after, b.id, b.cadence.value, dates, b.Amount()); }
  }

  lemma InsertedFilled(l: Ledger, after: Ledger, bill: nat, cadence: Cadence, dates: seq<Day>, amount: int)
    requires Inserted(l, after, bill, cadence, dates, amount)
    ensures Filled(l, after, bill, cadence, dates)
  {
    hide ScheduleKey, Holds;
    forall i | i in l.rows
      ensures i in after.rows && FilledRow(l.rows[i], after.rows[i], bill, cadence, dates)
    {
      assert KeptRow(l, after, bill, cadence, dates, amount, i);
    }
    forall i | i in after.rows && i !in l.rows
      ensures exists d :: d in dates && after.rows[i].key == ScheduleKey(cadence, d) && after.rows[i].dueDate == d && after.rows[i].dateOverride == None
    {
      assert AddedRow(l, after, bill, cadence, dates, amount, i);
    }
  }

  lemma RevivedFilled(l: Ledger, revived: Ledger, after: Ledger, bill: nat, cadence: Cadence, dates: seq<Day>,
        amount: int)
    requires Revived(l.rows, revived.rows, bill, dates) && Inserted(revived, after, bill, cadence, dates, amount)
    ensures Filled(l, after, bill, cadence, dates)
  {
    InsertedFilled(revived, after, bill, cadence, dates, amount);
    hide ScheduleKey, Inserted;
  }

  /** Moving a row onto the date its key names makes and removes no collision: keys agree with dates. */
  lemma SameCollisions(l: Ledger, after: Ledger, bill: nat, cadence: Cadence, dates: seq<Day>, d: Day)
    requires RowsFit(l) && Filled(l, after, bill, cadence, dates)
    requires forall e :: e in dates && e != d ==> ScheduleKey(cadence, e) != ScheduleKey(cadence, d)
    ensures NonColliding(after.rows, bill, cadence, d) == NonColliding(l.rows, bill, cadence, d)
  {
    forall i | i in l.rows && l.rows[i].bill == bill && l.rows[i].key != ScheduleKey(cadence, d)
      ensures l.rows[i].dueDate == d <==> after.rows[i].dueDate == d
    {
      assert FilledRow(l.rows[i], after.rows[i], bill, cadence, dates) && RowFits(i, l.rows[i]);
    }
    hide RowsFit;
    if !NonColliding(l.rows, bill, cadence, d) {
      var i :| i in l.rows && l.rows[i].bill == bill && l.rows[i].key != ScheduleKey(cadence, d)
               && (l.rows[i].dueDate == d || l.rows[i].dateOverride == Some(d));
      assert i in after.rows && FilledRow(l.rows[i], after.rows[i], bill, cadence, dates);
    }
    if !NonColliding(after.rows, bill, cadence, d) {
      var i :| i in after.rows && after.rows[i].bill == bill && after.rows[i].key != ScheduleKey(cadence, d)
               && (after.rows[i].dueDate == d || after.rows[i].dateOverride == Some(d));
      if i in l.rows { assert FilledRow(l.rows[i], after.rows[i], bill, cadence, dates); }
    }
  }

  /** After reviving, nothing under these months is left to revive. */
  lemma {:induction false} RevivedAlready(rows: Rows, bill: nat, dates: seq<Day>, d: Day, i: nat)
    requires d in dates && i in rows
    ensures i in ReviveAll(rows, bill, dates) && !Revivable(ReviveAll(rows, bill, dates)[i], bill, d.y, d.m)
  {
    var front, last := dates[..|dates| - 1], dates[|dates| - 1];
    ReviveAllKeys(rows, bill, front);
    if d != last {
      assert dates == front + [last];
      RevivedAlready(rows, bill, front, d, i);
    }
  }

  lemma {:induction false} ReviveAllKeys(rows: Rows, bill: nat, dates: seq<Day>)
    ensures ReviveAll(rows, bill, dates).Keys == rows.Keys
  {
    if dates != [] { ReviveAllKeys(rows, bill, dates[..|dates| - 1]); }
  }

  lemma {:induction false} NothingRevivable(rows: Rows, bill: nat, dates: seq<Day>)
    requires forall i, d :: i in rows && d in dates ==> !Revivable(rows[i], bill, d.y, d.m)
    ensures ReviveAll(rows, bill, dates) == rows
  {
    if dates != [] {
      var d := dates[|dates| - 1];
      assert d in dates;
      NothingRevivable(rows, bill, dates[..|dates| - 1]);
    }
  }

  /** Filling the same dates a second time changes nothing. */
  lemma FillAgain(l: Ledger, b: Bill, dates: seq<Day>)
    requires Inv(l) && b.Materializes() && Schedule(dates, b.cadence.value)
    requires forall d :: d in dates ==> Fits(l.rows, b.id, b.cadence.value, d)
    ensures var once := Fill(l, b, dates);
            once.Some? && Fill(once.value, b, dates) == once
  {
    var cadence := b.cadence.value;
    hide Inv, Schedule, ScheduleKey, Fits, Revived, ReviveAll, Fill;
    FillInserts(l, b, dates);
    var revived, once := RevivedFirst(l, b, dates), Fill(l, b, dates).value;
    if b.Card() {
      NothingLeftToRevive(l.rows, revived, once, b.id, cadence, dates, b.Amount());
      NothingRevivable(once.rows, b.id, dates);
    }
    InsertedTwice(revived, once, b.id, cadence, dates, b.Amount());
    FillIsInsert(once, b, dates);
  }

  lemma NothingLeftToRevive(rows: Rows, revived: Ledger, once: Ledger, bill: nat, cadence: Cadence, dates: seq<Day>,
        amount: int)
    requires revived.rows == ReviveAll(rows, bill, dates) && Inserted(revived, once, bill, cadence, dates, amount)
    ensures forall i, d :: i in once.rows && d in dates ==> !Revivable(once.rows[i], bill, d.y, d.m)
  {
    hide ScheduleKey, ReviveAll, Holds;
    forall i, d | i in once.rows && d in dates
      ensures !Revivable(once.rows[i], bill, d.y, d.m)
    {
      if i in revived.rows {
        ReviveAllKeys(rows, bill, dates);
        RevivedAlready(rows, bill, dates, d, i);
        assert KeptRow(revived, once, bill, cadence, dates, amount, i);
      } else {
        assert AddedRow(revived, once, bill, cadence, dates, amount, i);
      }
    }
  }

  lemma InsertedTwice(l: Ledger, once: Ledger, bill: nat, cadence: Cadence, dates: seq<Day>, amount: int)
    requires Inserted(l, once, bill, cadence, dates, amount) && Inv(once) && Schedule(dates, cadence)
    ensures InsertOccurrences(once, bill, cadence, dates, amount) == Some(once)
  {
    DifferentKeys(dates, cadence);
    hide ScheduleKey, Schedule, Inv, Holds, KeptRow, AddedRow;
    forall i, d | i in once.rows && d in dates && once.rows[i].bill == bill && once.rows[i].key == ScheduleKey(cadence, d)
      ensures once.rows[i] == Refresh(once.rows[i], d, amount)
    {
      RefreshedAlready(l, once, bill, cadence, dates, amount, i, d);
    }
    assert forall d :: d in dates ==> Holds(once.rows, bill, ScheduleKey(cadence, d));
    hide Inserted, Refresh;
    InsertAgain(once, bill, cadence, dates, amount);
  }

  lemma RefreshedAlready(l: Ledger, once: Ledger, bill: nat, cadence: Cadence, dates: seq<Day>, amount: int, i: nat,
        d: Day)
    requires if i in l.rows then KeptRow(l, once, bill, cadence, dates, amount, i) else AddedRow(l, once, bill, cadence, dates, amount, i)
    requires forall e :: e in dates && e != d ==> ScheduleKey(cadence, e) != ScheduleKey(cadence, d)
    requires i in once.rows && d in dates && once.rows[i].bill == bill && once.rows[i].key == ScheduleKey(cadence, d)
    ensures once.rows[i] == Refresh(once.rows[i], d, amount)
  {
    hide ScheduleKey, Holds;
  }

  /** Repeating the ordinary branch on the same schedule changes nothing at all. */
  lemma OrdinaryAgain(l: Ledger, b: Bill, dates: seq<Day>)
    requires Inv(l) && b.Materializes() && Schedule(dates, b.cadence.value)
    ensures var once := Ordinary(l, b, dates);
            once.Some? && Ordinary(once.value, b, dates) == once
  {
    var cadence := b.cadence.value;
    var within := WithinEnd(b, dates);
    var allowed := NonCollidingScheduleDates(l.rows, b.id, cadence, within);
    FilterKeepsSchedule(dates, (d: Day) => !Ended(b, d), cadence);
    FilterKeepsSchedule(within, (d: Day) => NonColliding(l.rows, b.id, cadence, d), cadence);
    DifferentKeys(within, cadence);
    forall d | d in allowed
      ensures Fits(l.rows, b.id, cadence, d)
    {
      assert NonColliding(l.rows, b.id, cadence, d);
    }
    hide ScheduleKey, Schedule, RowsFit, Fill, NonColliding, Filled;
    FillAgain(l, b, allowed);
    FillFilled(l, b, allowed);
    var once := Ordinary(l, b, dates).value;
    forall d | d in within
      ensures NonColliding(once.rows, b.id, cadence, d) == NonColliding(l.rows, b.id, cadence, d)
    {
      SameCollisions(l, once, b.id, cadence, allowed, d);
    }
    FilterSame(within, (d: Day) => NonColliding(once.rows, b.id, cadence, d), (d: Day) => NonColliding(l.rows, b.id, cadence, d));
  }
}
