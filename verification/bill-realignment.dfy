/** What a realignment leaves of the table, and exactly when realigning a second time changes nothing (src/modules/bills/bills.service.ts). */
module BillRealignment {
  import opened Wrappers
  import opened Calendar
  import opened Occurrences
  import opened BillSchedule
  import opened BillOccurrencesRepository
  import opened BillMaterialization
  import opened BillMaterializationProofs
  import opened RecurringEngine

  // --------------------------------------------------------------- what a realignment leaves

  /**
   The row a realignment leaves for an existing row, given what retiring made of it: a retired one on an allowed date
   comes back under the date's key with the bill's amount; a cancelled one that a card's revive step takes is upcoming
   again; every other stays as it is.
   */
  function RealignedRow(retired: Occurrence, b: Bill, today: Day, allowed: seq<Day>): Occurrence
    requires b.Materializes()
  {
    if retired.bill == b.id && !Protected(retired, today) && retired.dueDate in allowed then Adopt(retired, b.cadence.value, b.Amount())
    else RevivedAs(b, retired, allowed)
  }

  /** The dates the realignment fills. */
  function AllowedDates(l: Ledger, b: Bill, today: Day, dates: seq<Day>): seq<Day>
    requires b.Materializes()
  {
    RealignDates(RetireFutureSchedule(l.rows, b.id, today), b, today, dates)
  }

  /** The table the realignment fills. */
  function Readopted(l: Ledger, b: Bill, today: Day, dates: seq<Day>): Ledger
    requires b.Materializes()
  {
    l.(rows := AdoptAll(RetireFutureSchedule(l.rows, b.id, today), b.id, b.cadence.value, DateSet(AllowedDates(l, b, today, dates)), b.avgAmount))
  }

  ghost predicate Realigned(l: Ledger, after: Ledger, b: Bill, today: Day, dates: seq<Day>)
    requires b.Materializes()
  {
    var retired := RetireFutureSchedule(l.rows, b.id, today);
    var allowed := AllowedDates(l, b, today, dates);
    && (forall i :: i in l.rows ==> i in after.rows && after.rows[i] == RealignedRow(retired[i], b, today, allowed))
    && (forall i :: i in after.rows && i !in l.rows ==>
          exists d :: d in allowed && !RetiredRowOn(retired, b.id, d) && after.rows[i] == NewRow(b.id, ScheduleKey(b.cadence.value, d), d, b.Amount()))
    && (forall d :: d in allowed ==> Holds(after.rows, b.id, ScheduleKey(b.cadence.value, d)))
  }

  /** A realignment is a fill of the allowed dates after readopting. */
  lemma RealignIsFill(l: Ledger, b: Bill, today: Day, dates: seq<Day>)
    requires Inv(l) && b.Materializes() && Schedule(dates, b.cadence.value)
    ensures var m, allowed := Readopted(l, b, today, dates), AllowedDates(l, b, today, dates);
            && Realign(l, b, today, dates) == Fill(m, b, allowed)
            && Inv(m) && m.rows.Keys == l.rows.Keys && m.nextId == l.nextId && Schedule(allowed, b.cadence.value)
            && (forall d :: d in allowed ==> Fits(m.rows, b.id, b.cadence.value, d))
  {
    AdoptionOf(l, b, today, dates);
    RetireKeys(l.rows, b.id, today);
    hide Inv, Schedule, RetireFutureSchedule, RealignDates, Fill, Fits;
  }

  /** The exact table after a realignment. */
  lemma RealignLeaves(l: Ledger, b: Bill, today: Day, dates: seq<Day>)
    requires Inv(l) && b.Materializes() && Schedule(dates, b.cadence.value)
    ensures var r := Realign(l, b, today, dates);
            r.Some? && Realigned(l, r.value, b, today, dates)
  {
    var allowed, m := AllowedDates(l, b, today, dates), Readopted(l, b, today, dates);
    hide Inv, Schedule, ScheduleKey, Fits, Readopted, AllowedDates, Realign, RevivedFirst, Fill, Revived, Inserted, Realigned;
    RealignIsFill(l, b, today, dates);
    FillInserts(m, b, allowed);
    RevivedFirstKeys(m, b, allowed);
    InsertedRealigned(l, b, today, dates, Fill(m, b, allowed).value);
  }

  lemma InsertedRealigned(l: Ledger, b: Bill, today: Day, dates: seq<Day>, after: Ledger)
    requires Inv(l) && b.Materializes() && Schedule(dates, b.cadence.value)
    requires var allowed := AllowedDates(l, b, today, dates);
             var revived := RevivedFirst(Readopted(l, b, today, dates), b, allowed);
             revived.rows.Keys == l.rows.Keys && Inserted(revived, after, b.id, b.cadence.value, allowed, b.Amount())
    ensures Realigned(l, after, b, today, dates)
  {
    var cadence, retired, allowed := b.cadence.value, RetireFutureSchedule(l.rows, b.id, today), AllowedDates(l, b, today, dates);
    var revived := RevivedFirst(Readopted(l, b, today, dates), b, allowed);
    hide Inv, Schedule, ScheduleKey, Readopted, AllowedDates, KeptRow, AddedRow, RevivedFirst;
    hide RetireFutureSchedule, RetiredRowOn, RealignedRow, NewRow, Holds;
    forall i | i in l.rows
      ensures i in after.rows && after.rows[i] == RealignedRow(retired[i], b, today, allowed)
    {
      assert i in revived.rows;
      assert KeptRow(revived, after, b.id, cadence, allowed, b.Amount(), i);
      RealignLeavesRow(l, b, today, dates, after, i);
    }
    forall i | i in after.rows && i !in l.rows
      ensures exists d :: d in allowed && !RetiredRowOn(retired, b.id, d) && after.rows[i] == NewRow(b.id, ScheduleKey(cadence, d), d, b.Amount())
    {
      assert i !in revived.rows;
      assert AddedRow(revived, after, b.id, cadence, allowed, b.Amount(), i);
      RealignAddsRow(l, b, today, dates, after, i);
    }
  }

  lemma RealignLeavesRow(l: Ledger, b: Bill, today: Day, dates: seq<Day>, after: Ledger, i: nat)
    requires Inv(l) && b.Materializes() && Schedule(dates, b.cadence.value) && i in l.rows
    requires var allowed := AllowedDates(l, b, today, dates);
             KeptRow(RevivedFirst(Readopted(l, b, today, dates), b, allowed), after, b.id, b.cadence.value, allowed, b.Amount(), i)
    ensures i in after.rows
    ensures var retired := RetireFutureSchedule(l.rows, b.id, today);
            i in retired && after.rows[i] == RealignedRow(retired[i], b, today, AllowedDates(l, b, today, dates))
  {
    var cadence := b.cadence.value;
    var retired := RetireFutureSchedule(l.rows, b.id, today);
    var allowed, m := AllowedDates(l, b, today, dates), Readopted(l, b, today, dates);
    RealignDatesSchedule(retired, b, today, dates);
    DifferentKeys(allowed, cadence);
    RevivedFirstRow(m, b, allowed, i);
    if l.rows[i].bill == b.id { RetiredOrProtected(l, b.id, today, i); }
    var t := retired[i];
    hide Inv, Schedule, AllowedDates, RetireFutureSchedule, Protected, RevivedFirst, RevivedBy, ScheduleKey, Safe;
    assert m.rows[i] == AdoptRow(t, b.id, cadence, DateSet(allowed), b.avgAmount);
    RevivedNeeds(b, t, allowed);
    RevivedNeeds(b, m.rows[i], allowed);
    if t.bill == b.id && Protected(t, today) {
      forall d | d in allowed
        ensures t.key != ScheduleKey(cadence, d) && t.dueDate != d
      {
        SafeApart(retired, b, today, d, i);
      }
    } else if t.bill == b.id && t.dueDate in allowed {
      assert m.rows[i] == Adopt(t, cadence, b.avgAmount);
    } else if t.bill == b.id {
      RetiredKeyApart(t.key, cadence, allowed);
    }
  }

  lemma RevivedNeeds(b: Bill, r: Occurrence, dates: seq<Day>)
    ensures RevivedBy(b, r, dates) ==>
              b.Card() && r.bill == b.id && r.status == Cancelled && r.key.MonthKey? && !r.cancelledByEndDate
              && r.dateOverride == None && r.amountOverride == None
              && exists d :: d in dates && r.key == MonthKey(d.y, d.m)
  {
    if RevivedBy(b, r, dates) {
      var d :| d in dates && Revivable(r, b.id, d.y, d.m);
    }
  }

  lemma RetiredKeyApart(key: Key, cadence: Cadence, dates: seq<Day>)
    requires key.Retired?
    ensures forall d :: d in dates ==> key != ScheduleKey(cadence, d)
  {
  }

  lemma SafeApart(rows: Rows, b: Bill, today: Day, d: Day, i: nat)
    requires b.Materializes() && Safe(rows, b.id, b.cadence.value, today, d)
    requires i in rows && rows[i].bill == b.id && Protected(rows[i], today)
    ensures rows[i].key != ScheduleKey(b.cadence.value, d) && rows[i].dueDate != d && rows[i].EffectiveDate() != d
  {
    hide Protected, ScheduleKey;
  }

  lemma RealignAddsRow(l: Ledger, b: Bill, today: Day, dates: seq<Day>, after: Ledger, i: nat)
    requires Inv(l) && b.Materializes() && Schedule(dates, b.cadence.value) && i !in l.rows
    requires var allowed := AllowedDates(l, b, today, dates);
             AddedRow(RevivedFirst(Readopted(l, b, today, dates), b, allowed), after, b.id, b.cadence.value, allowed, b.Amount(), i)
    ensures var retired := RetireFutureSchedule(l.rows, b.id, today);
            exists d :: d in AllowedDates(l, b, today, dates) && !RetiredRowOn(retired, b.id, d)
                        && after.rows[i] == NewRow(b.id, ScheduleKey(b.cadence.value, d), d, b.Amount())
  {
    var cadence := b.cadence.value;
    var retired := RetireFutureSchedule(l.rows, b.id, today);
    var allowed, m := AllowedDates(l, b, today, dates), Readopted(l, b, today, dates);
    RealignDatesSchedule(retired, b, today, dates);
    var d :| d in allowed && !Holds(RevivedFirst(m, b, allowed).rows, b.id, ScheduleKey(cadence, d))
             && after.rows[i] == NewRow(b.id, ScheduleKey(cadence, d), d, b.Amount());
    if RetiredRowOn(retired, b.id, d) {
      hide Schedule, ScheduleKey, Safe, RetireFutureSchedule, AllowedDates, RevivedFirst, RetiredRowOn;
      RetiredRowIsAdopted(l, b, today, allowed, d);
      HeldRevived(m, b, allowed, ScheduleKey(cadence, d));
    }
  }

  lemma HeldRevived(m: Ledger, b: Bill, dates: seq<Day>, key: Key)
    ensures Holds(RevivedFirst(m, b, dates).rows, b.id, key) == Holds(m.rows, b.id, key)
  {
    hide RevivedBy, RevivedFirst;
    RevivedFirstKeys(m, b, dates);
    forall i | i in m.rows
      ensures RevivedFirst(m, b, dates).rows[i].bill == m.rows[i].bill && RevivedFirst(m, b, dates).rows[i].key == m.rows[i].key
    {
      RevivedFirstRow(m, b, dates, i);
    }
  }

  lemma RetiredRowIsAdopted(l: Ledger, b: Bill, today: Day, allowed: seq<Day>, d: Day)
    requires Inv(l) && b.Materializes() && d in allowed
    requires var retired := RetireFutureSchedule(l.rows, b.id, today);
             RetiredRowOn(retired, b.id, d) && Safe(retired, b.id, b.cadence.value, today, d)
    ensures var retired := RetireFutureSchedule(l.rows, b.id, today);
            Holds(AdoptAll(retired, b.id, b.cadence.value, DateSet(allowed), b.avgAmount), b.id, ScheduleKey(b.cadence.value, d))
  {
    var cadence := b.cadence.value;
    var retired := RetireFutureSchedule(l.rows, b.id, today);
    var adopted := AdoptAll(retired, b.id, cadence, DateSet(allowed), b.avgAmount);
    var j :| j in retired && retired[j].bill == b.id && retired[j].dueDate == d && retired[j].key.Retired?;
    RetireKeys(l.rows, b.id, today);
    RetiredOrProtected(l, b.id, today, j);
    hide Inv, RetireFutureSchedule, Protected, ScheduleKey;
    assert adopted[j].bill == b.id && adopted[j].key == ScheduleKey(cadence, d);
  }

  // --------------------------------------------------------------- realigning again

  /** What a realignment brings back stays protected: the rows a card revives are all past. */
  ghost predicate RevivesPastOnly(l: Ledger, b: Bill, today: Day, dates: seq<Day>)
    requires b.Materializes()
  {
    forall i :: i in l.rows && RevivedBy(b, l.rows[i], AllowedDates(l, b, today, dates)) ==> Before(l.rows[i].dueDate, today)
  }

  /** A row that can be revived is not one that retiring takes, and a retired row cannot be revived. */
  lemma RevivableIsNotRetired(id: nat, r: Occurrence, b: Bill, today: Day, dates: seq<Day>)
    ensures RevivedBy(b, r, dates) ==> RetireRow(id, r, b.id, today) == r
    ensures RevivedBy(b, RetireRow(id, r, b.id, today), dates) ==> RetireRow(id, r, b.id, today) == r
  {
    RevivedNeeds(b, r, dates);
    RevivedNeeds(b, RetireRow(id, r, b.id, today), dates);
    hide RevivedBy;
  }

  /** One existing row, retired and realigned a second time. */
  lemma RowAgain(id: nat, r: Occurrence, b: Bill, today: Day, allowed: seq<Day>)
    requires RowFits(id, r) && b.Materializes()
    requires forall d :: d in allowed ==> !Before(d, today)
    requires RevivedBy(b, r, allowed) ==> Before(r.dueDate, today)
    ensures var retired := RetireRow(id, r, b.id, today);
            var once := RealignedRow(retired, b, today, allowed);
            var again := RetireRow(id, once, b.id, today);
            && RealignedRow(again, b, today, allowed) == once
            && again.bill == once.bill && SameForSafety(again, retired, b, today)
  {
    var retired := RetireRow(id, r, b.id, today);
    var once := RealignedRow(retired, b, today, allowed);
    var again := RetireRow(id, once, b.id, today);
    RevivableIsNotRetired(id, r, b, today, allowed);
    RevivedNeeds(b, retired, allowed);
    RevivedNeeds(b, again, allowed);
    hide RevivedBy;
  }

  lemma NewRowAgain(id: nat, d: Day, b: Bill, today: Day, allowed: seq<Day>)
    requires b.Materializes() && d in allowed && !Before(d, today)
    ensures var row := NewRow(b.id, ScheduleKey(b.cadence.value, d), d, b.Amount());
            var again := RetireRow(id, row, b.id, today);
            again.bill == b.id && RealignedRow(again, b, today, allowed) == row && !Protected(again, today)
  {
  }

  /** The same, for every row of the table a realignment leaves. */
  lemma RealignRowAgain(l: Ledger, b: Bill, today: Day, dates: seq<Day>, once: Ledger, i: nat)
    requires Inv(l) && b.Materializes() && Schedule(dates, b.cadence.value) && Realigned(l, once, b, today, dates) && i in once.rows
    requires RevivesPastOnly(l, b, today, dates)
    ensures var retired := RetireFutureSchedule(l.rows, b.id, today);
            var again := RetireFutureSchedule(once.rows, b.id, today);
            && again[i].bill == once.rows[i].bill
            && RealignedRow(again[i], b, today, AllowedDates(l, b, today, dates)) == once.rows[i]
            && (i !in l.rows ==> !Protected(again[i], today))
            && (i in l.rows ==> SameForSafety(again[i], retired[i], b, today))
  {
    var retired := RetireFutureSchedule(l.rows, b.id, today);
    var allowed := AllowedDates(l, b, today, dates);
    RealignDatesSchedule(retired, b, today, dates);
    hide Schedule, Safe, AllowedDates, RowFits, RealignedRow, RetireRow, ScheduleKey, Protected, RevivedBy, SameForSafety;
    if i in l.rows {
      RowAgain(i, l.rows[i], b, today, allowed);
    } else {
      var d :| d in allowed && once.rows[i] == NewRow(b.id, ScheduleKey(b.cadence.value, d), d, b.Amount());
      NewRowAgain(i, d, b, today, allowed);
    }
  }

  /** Two rows the safety of a date cannot tell apart. */
  predicate SameForSafety(a: Occurrence, r: Occurrence, b: Bill, today: Day) {
    && a.bill == r.bill
    && (r.bill == b.id ==> Protected(a, today) == Protected(r, today))
    && (r.bill == b.id && Protected(r, today) ==> a.key == r.key && a.dueDate == r.dueDate && a.dateOverride == r.dateOverride)
  }

  lemma SameSafety(rows: Rows, again: Rows, b: Bill, cadence: Cadence, today: Day, d: Day)
    requires forall i :: i in rows ==> i in again && SameForSafety(again[i], rows[i], b, today)
    requires forall i :: i in again && i !in rows ==> !Protected(again[i], today)
    ensures Safe(again, b.id, cadence, today, d) == Safe(rows, b.id, cadence, today, d)
  {
    hide Protected, ScheduleKey;
  }

  /** The second realignment allows the same dates: it sees the same protected keys and days. */
  lemma SameDatesAgain(l: Ledger, b: Bill, today: Day, dates: seq<Day>, once: Ledger)
    requires Inv(l) && b.Materializes() && Schedule(dates, b.cadence.value) && Realigned(l, once, b, today, dates)
    requires RevivesPastOnly(l, b, today, dates)
    ensures AllowedDates(once, b, today, dates) == AllowedDates(l, b, today, dates)
  {
    var cadence := b.cadence.value;
    var retired := RetireFutureSchedule(l.rows, b.id, today);
    var again := RetireFutureSchedule(once.rows, b.id, today);
    hide Schedule, Inv, ScheduleKey, RealignedRow, SameForSafety, Protected, RetireRow, Safe, RevivesPastOnly;
    forall i | i in again
      ensures i !in retired ==> !Protected(again[i], today)
      ensures i in retired ==> SameForSafety(again[i], retired[i], b, today)
    {
      RealignRowAgain(l, b, today, dates, once, i);
    }
    forall d: Day
      ensures Safe(again, b.id, cadence, today, d) == Safe(retired, b.id, cadence, today, d)
    {
      SameSafety(retired, again, b, cadence, today, d);
    }
    FilterSame(NotPast(WithinEnd(b, dates), today), (d: Day) => Safe(again, b.id, cadence, today, d), (d: Day) => Safe(retired, b.id, cadence, today, d));
  }

  /**
   Realigning a realigned table on the same day changes nothing at all, unless the first pass revived a card's row
   that is still to come: the second pass then retires it. Under monthly keys nothing is revived.
   */
  lemma RealignAgain(l: Ledger, b: Bill, today: Day, dates: seq<Day>)
    requires Inv(l) && b.Materializes() && Schedule(dates, b.cadence.value)
    ensures var once := Realign(l, b, today, dates);
            once.Some? && (Realign(once.value, b, today, dates) == once <==> RevivesPastOnly(l, b, today, dates))
    ensures !b.Card() || b.cadence.value.Monthly? ==> RevivesPastOnly(l, b, today, dates)
  {
    hide Schedule, Realign, Inv, RevivesPastOnly, OnlyBill, Realigned;
    RealignSafe(l, b, today, dates);
    RealignLeaves(l, b, today, dates);
    var once := Realign(l, b, today, dates).value;
    RealignSafe(once, b, today, dates);
    RealignLeaves(once, b, today, dates);
    var twice := Realign(once, b, today, dates).value;
    if RevivesPastOnly(l, b, today, dates) {
      SameRowsAgain(l, b, today, dates, once, twice);
      NextIdUnlessAdded(once, b, today, dates);
      FreshId(once);
      SameRejections(once, twice, b.id);
    } else {
      ComingRowChanges(l, b, today, dates, once, twice);
    }
    if !b.Card() || b.cadence.value.Monthly? { MonthlyRevivesNothing(l, b, today, dates); }
  }

  lemma SameRejections(l: Ledger, after: Ledger, bill: nat)
    requires OnlyBill(l, after, bill)
    ensures after.rejected == l.rejected
  {
  }

  lemma FreshId(l: Ledger)
    ensures Inv(l) ==> l.nextId !in l.rows
  {
  }

  /** No date is safe whose monthly key a cancelled row still holds. */
  lemma MonthlyRevivesNothing(l: Ledger, b: Bill, today: Day, dates: seq<Day>)
    requires Inv(l) && b.Materializes() && Schedule(dates, b.cadence.value) && (!b.Card() || b.cadence.value.Monthly?)
    ensures RevivesPastOnly(l, b, today, dates)
  {
    forall i | i in l.rows
      ensures !RevivedBy(b, l.rows[i], AllowedDates(l, b, today, dates))
    {
      RevivedNotMonthly(l, b, today, dates, i);
    }
  }

  lemma RevivedNotMonthly(l: Ledger, b: Bill, today: Day, dates: seq<Day>, i: nat)
    requires Inv(l) && b.Materializes() && Schedule(dates, b.cadence.value) && i in l.rows
    ensures RevivedBy(b, l.rows[i], AllowedDates(l, b, today, dates)) ==> b.Card() && !b.cadence.value.Monthly?
  {
    var r, retired, allowed := l.rows[i], RetireFutureSchedule(l.rows, b.id, today), AllowedDates(l, b, today, dates);
    RevivedNeeds(b, r, allowed);
    RevivableIsNotRetired(i, r, b, today, allowed);
    RealignDatesSchedule(retired, b, today, dates);
    RetireAt(l.rows, b.id, today, i);
    hide Inv, Schedule, RealignDates, RetireFutureSchedule, RetireRow, Safe, RevivedBy;
    if RevivedBy(b, r, allowed) {
      var d :| d in allowed && r.key == MonthKey(d.y, d.m);
      SafeApart(retired, b, today, d, i);
    }
  }

  /** A revived row still to come is retired by the second pass, and can come back only under another key. */
  lemma ComingRowChanges(l: Ledger, b: Bill, today: Day, dates: seq<Day>, once: Ledger, twice: Ledger)
    requires Inv(l) && b.Materializes() && Schedule(dates, b.cadence.value)
    requires Realigned(l, once, b, today, dates) && Realigned(once, twice, b, today, dates)
    requires !RevivesPastOnly(l, b, today, dates)
    ensures twice != once
  {
    hide Inv, Schedule, AllowedDates, RevivedBy, RetireFutureSchedule, Realigned, RealignedRow;
    var allowed := AllowedDates(l, b, today, dates);
    var i :| i in l.rows && RevivedBy(b, l.rows[i], allowed) && !Before(l.rows[i].dueDate, today);
    RevivedNotMonthly(l, b, today, dates, i);
    RetireAt(l.rows, b.id, today, i);
    RealignedOldRow(l, once, b, today, dates, i);
    RetireAt(once.rows, b.id, today, i);
    RealignedOldRow(once, twice, b, today, dates, i);
    RowOf(l, i);
    ComingRowRetired(i, l.rows[i], b, today, allowed, AllowedDates(once, b, today, dates));
  }

  lemma ComingRowRetired(id: nat, r: Occurrence, b: Bill, today: Day, allowed: seq<Day>, next: seq<Day>)
    requires RowFits(id, r) && b.Materializes() && !b.cadence.value.Monthly? && RevivedBy(b, r, allowed) && !Before(r.dueDate, today)
    ensures var once := RealignedRow(RetireRow(id, r, b.id, today), b, today, allowed);
            RealignedRow(RetireRow(id, once, b.id, today), b, today, next) != once
  {
    RevivedNeeds(b, r, allowed);
    var once := r.(status := Upcoming);
    var again := RetireRow(id, once, b.id, today);
    RevivedNeeds(b, again, next);
    hide RevivedBy;
    assert RetireRow(id, r, b.id, today) == r;
    assert RealignedRow(r, b, today, allowed) == once;
    assert again.key == Retired(id);
  }

  lemma SameRowsAgain(l: Ledger, b: Bill, today: Day, dates: seq<Day>, once: Ledger, twice: Ledger)
    requires Inv(l) && Inv(once) && b.Materializes() && Schedule(dates, b.cadence.value)
    requires Realigned(l, once, b, today, dates) && Realigned(once, twice, b, today, dates)
    requires RevivesPastOnly(l, b, today, dates)
    ensures twice.rows == once.rows
  {
    hide AllowedDates, Schedule, ScheduleKey, RetireFutureSchedule, Protected, RealignedRow, Inv, Realigned, SameForSafety, RevivesPastOnly;
    SameDatesAgain(l, b, today, dates, once);
    forall i | i in once.rows
      ensures i in twice.rows && twice.rows[i] == once.rows[i]
    {
      RealignRowAgain(l, b, today, dates, once, i);
      RealignedOldRow(once, twice, b, today, dates, i);
    }
    forall i | i in twice.rows
      ensures i in once.rows
    {
      NothingToAdd(l, b, today, dates, once, twice, i);
    }
  }

  lemma RealignedOldRow(l: Ledger, after: Ledger, b: Bill, today: Day, dates: seq<Day>, i: nat)
    requires b.Materializes() && Realigned(l, after, b, today, dates) && i in l.rows
    ensures i in after.rows
    ensures i in RetireFutureSchedule(l.rows, b.id, today)
    ensures var retired := RetireFutureSchedule(l.rows, b.id, today);
            after.rows[i] == RealignedRow(retired[i], b, today, AllowedDates(l, b, today, dates))
  {
  }

  /** Every allowed date is held after one realignment, so the second one finds a retired row on each. */
  lemma NothingToAdd(l: Ledger, b: Bill, today: Day, dates: seq<Day>, once: Ledger, twice: Ledger, i: nat)
    requires Inv(l) && Inv(once) && b.Materializes() && Schedule(dates, b.cadence.value)
    requires Realigned(l, once, b, today, dates) && Realigned(once, twice, b, today, dates)
    requires AllowedDates(once, b, today, dates) == AllowedDates(l, b, today, dates)
    requires i in twice.rows
    ensures i in once.rows
  {
    if i !in once.rows {
      var again := RetireFutureSchedule(once.rows, b.id, today);
      hide Inv, Schedule, AllowedDates, RetireFutureSchedule, RetiredRowOn, RealignedRow, ScheduleKey, Holds;
      var d :| d in AllowedDates(once, b, today, dates) && !RetiredRowOn(again, b.id, d);
      AllowedDateIsReusable(l, b, today, dates, once, d);
    }
  }

  lemma AllowedDateIsReusable(l: Ledger, b: Bill, today: Day, dates: seq<Day>, once: Ledger, d: Day)
    requires Inv(l) && b.Materializes() && Schedule(dates, b.cadence.value) && Realigned(l, once, b, today, dates)
    requires d in AllowedDates(l, b, today, dates)
    ensures RetiredRowOn(RetireFutureSchedule(once.rows, b.id, today), b.id, d)
  {
    var again := RetireFutureSchedule(once.rows, b.id, today);
    assert Holds(once.rows, b.id, ScheduleKey(b.cadence.value, d));
    var j :| j in once.rows && once.rows[j].bill == b.id && once.rows[j].key == ScheduleKey(b.cadence.value, d);
    HolderIsOnDate(l, b, today, dates, once, d, j);
    assert again[j].bill == b.id && again[j].dueDate == d && again[j].key.Retired?;
  }

  /** After a realignment the row under an allowed date's key stands on that date and can be retired. */
  lemma HolderIsOnDate(l: Ledger, b: Bill, today: Day, dates: seq<Day>, once: Ledger, d: Day, j: nat)
    requires Inv(l) && b.Materializes() && Schedule(dates, b.cadence.value) && Realigned(l, once, b, today, dates)
    requires d in AllowedDates(l, b, today, dates)
    requires j in once.rows && once.rows[j].bill == b.id && once.rows[j].key == ScheduleKey(b.cadence.value, d)
    ensures once.rows[j].dueDate == d
    ensures RetireFutureSchedule(once.rows, b.id, today)[j].key == Retired(j)
    ensures once.rows[j] == NewRow(b.id, ScheduleKey(b.cadence.value, d), d, b.Amount()).(paymentOverride := once.rows[j].paymentOverride)
  {
    var cadence := b.cadence.value;
    var retired := RetireFutureSchedule(l.rows, b.id, today);
    var allowed := AllowedDates(l, b, today, dates);
    RealignDatesSchedule(retired, b, today, dates);
    DifferentKeys(allowed, cadence);
    hide AllowedDates, Schedule, Safe, RetireFutureSchedule, ScheduleKey, Inv;
    if j in l.rows {
      RetiredOrProtected(l, b.id, today, j);
      hide RowFits, Protected, RealignedRow;
      HolderIsAdopted(retired, b, today, allowed, d, once, j);
      var e := retired[j].dueDate;
      assert e in DateSet(allowed) && ScheduleKey(cadence, e) == ScheduleKey(cadence, d);
      RowOf(l, j);
      RetireAt(l.rows, b.id, today, j);
      AdoptedCanRetire(j, l.rows[j], b, today);
    } else {
      var e :| e in allowed && once.rows[j] == NewRow(b.id, ScheduleKey(cadence, e), e, b.Amount());
      assert e in DateSet(allowed);
    }
    RetireAt(once.rows, b.id, today, j);
  }

  lemma RetireAt(rows: Rows, bill: nat, today: Day, i: nat)
    requires i in rows
    ensures i in RetireFutureSchedule(rows, bill, today) && RetireFutureSchedule(rows, bill, today)[i] == RetireRow(i, rows[i], bill, today)
  {
  }

  lemma AdoptedCanRetire(id: nat, r: Occurrence, b: Bill, today: Day)
    requires RowFits(id, r) && b.Materializes()
    ensures var retired := RetireRow(id, r, b.id, today);
            retired.bill == b.id && !Protected(retired, today) ==>
              Retirable(Adopt(retired, b.cadence.value, b.Amount()), b.id, today)
              && retired.NoPayment() && retired.dateOverride == None && retired.amountOverride == None
  {
  }

  lemma HolderIsAdopted(retired: Rows, b: Bill, today: Day, allowed: seq<Day>, d: Day, once: Ledger, j: nat)
    requires b.Materializes() && d in allowed && Safe(retired, b.id, b.cadence.value, today, d)
    requires j in retired && j in once.rows && retired[j].bill == b.id && once.rows[j].key == ScheduleKey(b.cadence.value, d)
    requires once.rows[j] == RealignedRow(retired[j], b, today, allowed)
    requires !Protected(retired[j], today) ==> retired[j].key.Retired?
    ensures once.rows[j] == Adopt(retired[j], b.cadence.value, b.Amount()) && retired[j].dueDate in allowed && !Protected(retired[j], today)
  {
    hide RevivedBy, Protected;
  }

  /** The id counter only moves when a row is added. */
  lemma NextIdUnlessAdded(l: Ledger, b: Bill, today: Day, dates: seq<Day>)
    requires Inv(l) && b.Materializes() && Schedule(dates, b.cadence.value)
    ensures var r := Realign(l, b, today, dates);
            r.Some? ==> r.value.nextId == l.nextId || l.nextId in r.value.rows
  {
    var allowed, m := AllowedDates(l, b, today, dates), Readopted(l, b, today, dates);
    hide AllowedDates, Readopted, Schedule, Inv, Realign, Fill, Fits, ReviveAll;
    RealignIsFill(l, b, today, dates);
    FillIsInsert(m, b, allowed);
    InsertNextId(RevivedFirst(m, b, allowed), b.id, b.cadence.value, allowed, b.Amount());
  }
}
