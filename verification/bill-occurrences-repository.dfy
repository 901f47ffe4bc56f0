/**
 The SQL statements on bill_occurrences (src/modules/bills/bill-occurrences.repository.ts), each one atomic
 step. The functions say what a statement leaves in the table; `None` is a unique-index violation.
 */
module BillOccurrencesRepository {
  import opened Wrappers
  import opened Calendar
  import opened Occurrences
  import opened BillSchedule

  // ------------------------------------------------------------- insertOccurrences

  function NewRow(bill: nat, key: Key, date: Day, amount: int): Occurrence {
    Occurrence(bill, key, date, None, Upcoming, false, amount, None, None, None, None, None, None, None, None)
  }

  /** The ON CONFLICT branch: an open row takes the new date and amount, any other row stays as it is. */
  function Refresh(r: Occurrence, date: Day, amount: int): Occurrence {
    if r.Open() then r.(dueDate := date, amount := amount) else r
  }

  predicate Holds(rows: Rows, bill: nat, key: Key) {
    exists i :: i in rows && rows[i].bill == bill && rows[i].key == key
  }

  function RefreshRow(r: Occurrence, bill: nat, key: Key, date: Day, amount: int): Occurrence {
    if r.bill == bill && r.key == key then Refresh(r, date, amount) else r
  }

  /** One proposed row of the INSERT. */
  function Upsert(l: Ledger, bill: nat, key: Key, date: Day, amount: int): Ledger {
    if Holds(l.rows, bill, key) then
      l.(rows := map i | i in l.rows :: RefreshRow(l.rows[i], bill, key, date, amount))
    else
      l.(rows := l.rows[l.nextId := NewRow(bill, key, date, amount)], nextId := l.nextId + 1)
  }

  /** The whole statement: it may not touch a key twice, and no proposed row may break a unique index. */
  function InsertOccurrences(l: Ledger, bill: nat, cadence: Cadence, dates: seq<Day>, amount: int): Option<Ledger> {
    if dates == [] then Some(l)
    else
      var front, date := dates[..|dates| - 1], dates[|dates| - 1];
      match InsertOccurrences(l, bill, cadence, front, amount)
      case None => None
      case Some(before) =>
        if exists d :: d in front && ScheduleKey(cadence, d) == ScheduleKey(cadence, date) then None
        else
          var after := Upsert(before, bill, ScheduleKey(cadence, date), date, amount);
          if Unique(after.rows) then Some(after) else None
  }

  /** No other cycle of the bill holds this baseline date. */
  ghost predicate Fits(rows: Rows, bill: nat, cadence: Cadence, date: Day) {
    forall i :: i in rows && rows[i].bill == bill && rows[i].dueDate == date ==> rows[i].key == ScheduleKey(cadence, date)
  }

  lemma UpsertKeepsInv(l: Ledger, bill: nat, cadence: Cadence, date: Day, amount: int)
    requires Inv(l) && Fits(l.rows, bill, cadence, date)
    ensures Inv(Upsert(l, bill, ScheduleKey(cadence, date), date, amount))
  {
    var key := ScheduleKey(cadence, date);
    var after := Upsert(l, bill, key, date, amount);
    PaymentsUntouched(l.rows, after.rows);
    assert RowsFit(after);
    UpsertKeepsUnique(l, bill, cadence, date, amount);
  }

  lemma UpsertKeepsUnique(l: Ledger, bill: nat, cadence: Cadence, date: Day, amount: int)
    requires RowsFit(l) && Unique(l.rows) && Fits(l.rows, bill, cadence, date)
    ensures Unique(Upsert(l, bill, ScheduleKey(cadence, date), date, amount).rows)
  {
    var key := ScheduleKey(cadence, date);
    var after := Upsert(l, bill, key, date, amount).rows;
    hide ScheduleKey, RefreshRow;
    if Holds(l.rows, bill, key) {
      forall i, j | i in after && j in after && i != j && after[i].bill == after[j].bill
        ensures after[i].key != after[j].key && after[i].dueDate != after[j].dueDate
      {
        RefreshApart(l.rows[i], l.rows[j], bill, key, date, amount);
      }
    } else {
      forall i | i in l.rows && l.rows[i].bill == bill
        ensures l.rows[i].key != key && l.rows[i].dueDate != date
      {
      }
    }
  }

  lemma RefreshApart(r: Occurrence, s: Occurrence, bill: nat, key: Key, date: Day, amount: int)
    requires r.bill == s.bill ==> r.key != s.key && r.dueDate != s.dueDate
    requires r.bill == bill && r.dueDate == date ==> r.key == key
    requires s.bill == bill && s.dueDate == date ==> s.key == key
    ensures var a, b := RefreshRow(r, bill, key, date, amount), RefreshRow(s, bill, key, date, amount);
            a.bill == b.bill ==> a.key != b.key && a.dueDate != b.dueDate
  {
  }

  /** An existing row after a batch: refreshed if the batch has its key, otherwise as it was. */
  ghost predicate KeptRow(l: Ledger, after: Ledger, bill: nat, cadence: Cadence, dates: seq<Day>, amount: int, i: nat) {
    && i in l.rows && i in after.rows
    && (forall d :: d in dates && l.rows[i].bill == bill && l.rows[i].key == ScheduleKey(cadence, d) ==>
                      after.rows[i] == Refresh(l.rows[i], d, amount))
    && ((forall d :: d in dates && l.rows[i].bill == bill ==> l.rows[i].key != ScheduleKey(cadence, d)) ==>
          after.rows[i] == l.rows[i])
  }

  /** A row a batch adds: the new row of a date whose key was free. */
  ghost predicate AddedRow(l: Ledger, after: Ledger, bill: nat, cadence: Cadence, dates: seq<Day>, amount: int,
        i: nat) {
    i in after.rows
    && exists d :: d in dates && !Holds(l.rows, bill, ScheduleKey(cadence, d))
                   && after.rows[i] == NewRow(bill, ScheduleKey(cadence, d), d, amount)
  }

  /** What a batch leaves behind. */
  ghost predicate Inserted(l: Ledger, after: Ledger, bill: nat, cadence: Cadence, dates: seq<Day>, amount: int) {
    && after.rejected == l.rejected
    && l.nextId <= after.nextId
    && (forall i :: i in l.rows ==> KeptRow(l, after, bill, cadence, dates, amount, i))
    && (forall i :: i in after.rows && i !in l.rows ==> AddedRow(l, after, bill, cadence, dates, amount, i))
    && (forall d :: d in dates ==> Holds(after.rows, bill, ScheduleKey(cadence, d)))
  }

  /** On dates that fit, the insert never meets a unique index, keeps the invariant, and does exactly `Inserted`. */
  lemma {:induction false} InsertSucceeds(l: Ledger, bill: nat, cadence: Cadence, dates: seq<Day>, amount: int)
    requires Inv(l) && Schedule(dates, cadence)
    requires forall d :: d in dates ==> Fits(l.rows, bill, cadence, d)
    ensures var r := InsertOccurrences(l, bill, cadence, dates, amount);
            r.Some? && Inv(r.value) && Inserted(l, r.value, bill, cadence, dates, amount)
  {
    hide Inserted, Upsert, Fits, RowsFit, OneBillPerPayment, Unique, ScheduleKey;
    if dates == [] {
      InsertNothing(l, bill, cadence, amount);
    } else {
      var front, date := dates[..|dates| - 1], dates[|dates| - 1];
      InsertSucceeds(l, bill, cadence, front, amount);
      var before := InsertOccurrences(l, bill, cadence, front, amount).value;
      assert date in dates && dates == front + [date];
      FitsStill(l, before, bill, cadence, front, amount, date);
      UpsertKeepsInv(before, bill, cadence, date, amount);
      UpsertInserts(l, before, bill, cadence, front, amount, date);
    }
  }

  lemma InsertNothing(l: Ledger, bill: nat, cadence: Cadence, amount: int)
    ensures Inserted(l, l, bill, cadence, [], amount)
  {
  }

  lemma FitsStill(l: Ledger, before: Ledger, bill: nat, cadence: Cadence, front: seq<Day>, amount: int, date: Day)
    requires Inserted(l, before, bill, cadence, front, amount)
    requires Fits(l.rows, bill, cadence, date) && date !in front
    ensures Fits(before.rows, bill, cadence, date)
  {
    hide ScheduleKey;
    forall i | i in before.rows && before.rows[i].bill == bill && before.rows[i].dueDate == date
      ensures before.rows[i].key == ScheduleKey(cadence, date)
    {
      if i in l.rows {
        assert KeptRow(l, before, bill, cadence, front, amount, i);
      } else {
        assert AddedRow(l, before, bill, cadence, front, amount, i);
      }
    }
  }

  lemma UpsertInserts(l: Ledger, before: Ledger, bill: nat, cadence: Cadence, front: seq<Day>, amount: int, date: Day)
    requires Inserted(l, before, bill, cadence, front, amount) && RowsFit(before)
    requires forall d :: d in front ==> ScheduleKey(cadence, d) != ScheduleKey(cadence, date)
    ensures Inserted(l, Upsert(before, bill, ScheduleKey(cadence, date), date, amount), bill, cadence, front + [date], amount)
  {
    hide ScheduleKey, KeptRow, AddedRow, RowsFit, Holds;
    var key, all := ScheduleKey(cadence, date), front + [date];
    var after := Upsert(before, bill, key, date, amount);
    forall d | d in all
      ensures Holds(after.rows, bill, ScheduleKey(cadence, d))
    {
      HeldAfterUpsert(before, bill, ScheduleKey(cadence, d), key, date, amount);
    }
    forall i | i in l.rows
      ensures KeptRow(l, after, bill, cadence, all, amount, i)
    {
      KeptByUpsert(l, before, bill, cadence, front, amount, date, i);
    }
    forall i | i in after.rows && i !in l.rows
      ensures AddedRow(l, after, bill, cadence, all, amount, i)
    {
      AddedByUpsert(l, before, bill, cadence, front, amount, date, i);
    }
  }

  lemma KeptByUpsert(l: Ledger, before: Ledger, bill: nat, cadence: Cadence, front: seq<Day>, amount: int, date: Day,
        i: nat)
    requires KeptRow(l, before, bill, cadence, front, amount, i) && RowsFit(before)
    requires forall d :: d in front ==> ScheduleKey(cadence, d) != ScheduleKey(cadence, date)
    ensures KeptRow(l, Upsert(before, bill, ScheduleKey(cadence, date), date, amount), bill, cadence, front + [date], amount, i)
  {
    hide ScheduleKey, Holds;
    var key := ScheduleKey(cadence, date);
    var after := Upsert(before, bill, key, date, amount);
    UpsertRow(before, bill, key, date, amount, i);
    hide Upsert;
    if d :| d in front && l.rows[i].bill == bill && l.rows[i].key == ScheduleKey(cadence, d) {
      assert before.rows[i] == Refresh(l.rows[i], d, amount);
      assert d in front + [date];
    } else {
      assert before.rows[i] == l.rows[i];
      assert date in front + [date];
    }
  }

  /** What an upsert does to a row already there. */
  lemma UpsertRow(l: Ledger, bill: nat, key: Key, date: Day, amount: int, i: nat)
    requires i in l.rows && RowsFit(l)
    ensures var after := Upsert(l, bill, key, date, amount).rows;
            i in after && after[i] == RefreshRow(l.rows[i], bill, key, date, amount)
  {
  }

  lemma AddedByUpsert(l: Ledger, before: Ledger, bill: nat, cadence: Cadence, front: seq<Day>, amount: int,
        date: Day, i: nat)
    requires Inserted(l, before, bill, cadence, front, amount)
    requires forall d :: d in front ==> ScheduleKey(cadence, d) != ScheduleKey(cadence, date)
    requires i in Upsert(before, bill, ScheduleKey(cadence, date), date, amount).rows && i !in l.rows
    ensures AddedRow(l, Upsert(before, bill, ScheduleKey(cadence, date), date, amount), bill, cadence, front + [date], amount, i)
  {
    hide ScheduleKey;
    var key := ScheduleKey(cadence, date);
    if Holds(l.rows, bill, key) { HeldStays(l, before, bill, cadence, front, amount, key); }
    if i in before.rows && before.rows[i] == Upsert(before, bill, key, date, amount).rows[i] {
      assert AddedRow(l, before, bill, cadence, front, amount, i);
    } else {
      assert date in front + [date];
    }
  }

  lemma HeldAfterUpsert(l: Ledger, bill: nat, wanted: Key, key: Key, date: Day, amount: int)
    requires RowsFit(l)
    requires wanted == key || Holds(l.rows, bill, wanted)
    ensures Holds(Upsert(l, bill, key, date, amount).rows, bill, wanted)
  {
    var after := Upsert(l, bill, key, date, amount);
    if !Holds(l.rows, bill, key) && wanted == key {
      assert after.rows[l.nextId].key == key;
    } else {
      var i :| i in l.rows && l.rows[i].bill == bill && l.rows[i].key == wanted;
      assert i in after.rows && after.rows[i].key == wanted;
    }
  }

  lemma HeldStays(l: Ledger, after: Ledger, bill: nat, cadence: Cadence, dates: seq<Day>, amount: int, key: Key)
    requires Inserted(l, after, bill, cadence, dates, amount) && Holds(l.rows, bill, key)
    ensures Holds(after.rows, bill, key)
  {
    var i :| i in l.rows && l.rows[i].bill == bill && l.rows[i].key == key;
    assert KeptRow(l, after, bill, cadence, dates, amount, i);
    assert after.rows[i].bill == bill && after.rows[i].key == key;
  }

  /** Inserting what is already there changes nothing. */
  lemma {:induction false} InsertAgain(l: Ledger, bill: nat, cadence: Cadence, dates: seq<Day>, amount: int)
    requires Inv(l) && Schedule(dates, cadence)
    requires forall d :: d in dates ==> Holds(l.rows, bill, ScheduleKey(cadence, d))
    requires forall i, d :: i in l.rows && d in dates && l.rows[i].bill == bill && l.rows[i].key == ScheduleKey(cadence, d) ==>
               l.rows[i] == Refresh(l.rows[i], d, amount)
    ensures InsertOccurrences(l, bill, cadence, dates, amount) == Some(l)
  {
    if dates != [] {
      var front, date := dates[..|dates| - 1], dates[|dates| - 1];
      InsertAgain(l, bill, cadence, front, amount);
      assert date in dates;
      assert Upsert(l, bill, ScheduleKey(cadence, date), date, amount).rows == l.rows;
    }
  }

  // ------------------------------------------------- retireFutureSchedule, adoptRetiredScheduleDate

  predicate Retirable(r: Occurrence, bill: nat, today: Day) {
    && r.bill == bill
    && !Before(r.EffectiveDate(), today)
    && r.dateOverride == None && r.amountOverride == None
    && r.linkedTxn == None && r.markedPaidAt == None && r.paidAmount == None && r.confirmedPaidAt == None
    && (r.status == Upcoming || (r.status == Cancelled && (r.cancelledByEndDate || r.key.Retired?)))
  }

  function RetireRow(id: nat, r: Occurrence, bill: nat, today: Day): Occurrence {
    if Retirable(r, bill, today) then r.(status := Cancelled, cancelledByEndDate := false, key := Retired(id)) else r
  }

  function RetireFutureSchedule(rows: Rows, bill: nat, today: Day): Rows {
    map i | i in rows :: RetireRow(i, rows[i], bill, today)
  }

  predicate Adoptable(r: Occurrence, bill: nat) {
    && r.bill == bill && r.status == Cancelled && r.key.Retired?
    && r.dateOverride == None && r.amountOverride == None && r.linkedTxn == None && r.markedPaidAt == None
  }

  function Adopt(r: Occurrence, cadence: Cadence, amount: int): Occurrence {
    r.(status := Upcoming, key := ScheduleKey(cadence, r.dueDate), amount := amount, cancelledByEndDate := false)
  }

  function AdoptRow(r: Occurrence, bill: nat, cadence: Cadence, dates: set<Day>, amount: int): Occurrence {
    if Adoptable(r, bill) && r.dueDate in dates then Adopt(r, cadence, amount) else r
  }

  /** Every retired row on one of these dates brought back under the new schedule's key. */
  function AdoptAll(rows: Rows, bill: nat, cadence: Cadence, dates: set<Day>, amount: int): Rows {
    map i | i in rows :: AdoptRow(rows[i], bill, cadence, dates, amount)
  }

  /** `adoptRetiredScheduleDate`: one date at a time. */
  function AdoptRetiredScheduleDate(rows: Rows, bill: nat, cadence: Cadence, date: Day, amount: int): Option<Rows> {
    var after := AdoptAll(rows, bill, cadence, {date}, amount);
    if Unique(after) then Some(after) else None
  }

  lemma RetireKeepsInv(l: Ledger, bill: nat, today: Day)
    requires Inv(l)
    ensures Inv(l.(rows := RetireFutureSchedule(l.rows, bill, today)))
  {
    var after := RetireFutureSchedule(l.rows, bill, today);
    forall i | i in l.rows
      ensures RowFits(i, l.rows[i]) && RowFits(i, after[i]) && SamePayment(after[i], l.rows[i])
      ensures after[i].bill == l.rows[i].bill && after[i].dueDate == l.rows[i].dueDate
      ensures after[i].key == l.rows[i].key || after[i].key == Retired(i)
    {
      RetireRowFits(i, l.rows[i], bill, today);
    }
    hide RetireFutureSchedule, RowFits, SamePayment;
    RetireKeys(l.rows, bill, today);
    PaymentsUntouched(l.rows, after);
    forall i, j | i in after && j in after && i != j && after[i].bill == after[j].bill
      ensures after[i].key != after[j].key && after[i].dueDate != after[j].dueDate
    {
      assert l.rows[i].key != l.rows[j].key;
      RetiredIsOwn(i, after[i]);
      RetiredIsOwn(j, after[j]);
    }
  }

  lemma RetiredIsOwn(id: nat, r: Occurrence)
    requires RowFits(id, r)
    ensures r.key.Retired? ==> r.key == Retired(id)
  {
  }

  lemma RetireKeys(rows: Rows, bill: nat, today: Day)
    ensures RetireFutureSchedule(rows, bill, today).Keys == rows.Keys
  {
  }

  lemma RetireRowFits(id: nat, r: Occurrence, bill: nat, today: Day)
    requires RowFits(id, r)
    ensures var after := RetireRow(id, r, bill, today);
            RowFits(id, after) && SamePayment(after, r) && after.bill == r.bill && after.dueDate == r.dueDate
            && (after.key == r.key || after.key == Retired(id))
  {
  }

  /** After retiring, the bill's rows are protected ones, which were not touched, and retired ones waiting. */
  lemma RetiredOrProtected(l: Ledger, bill: nat, today: Day, i: nat)
    requires Inv(l) && i in l.rows && l.rows[i].bill == bill
    ensures var r := RetireFutureSchedule(l.rows, bill, today)[i];
            && (Protected(r, today) ==> r == l.rows[i])
            && (!Protected(r, today) ==> Adoptable(r, bill) && Retirable(r, bill, today))
            && (Protected(r, today) ==> !Retirable(r, bill, today))
  {
  }

  lemma AdoptStep(rows: Rows, bill: nat, cadence: Cadence, dates: set<Day>, date: Day, amount: int)
    ensures AdoptAll(AdoptAll(rows, bill, cadence, dates, amount), bill, cadence, {date}, amount)
            == AdoptAll(rows, bill, cadence, dates + {date}, amount)
  {
  }

  /** Adopting safe dates into a retired table keeps the invariant: no protected row holds such a key or date. */
  lemma AdoptKeepsInv(l: Ledger, bill: nat, cadence: Cadence, today: Day, dates: set<Day>, amount: int)
    requires Inv(l)
    requires forall i :: i in l.rows && l.rows[i].bill == bill && !Protected(l.rows[i], today) ==> Adoptable(l.rows[i], bill)
    requires forall d :: d in dates ==> Safe(l.rows, bill, cadence, today, d)
    requires forall d, e :: d in dates && e in dates && d != e ==> ScheduleKey(cadence, d) != ScheduleKey(cadence, e)
    ensures Inv(l.(rows := AdoptAll(l.rows, bill, cadence, dates, amount)))
  {
    var after := AdoptAll(l.rows, bill, cadence, dates, amount);
    forall i | i in l.rows
      ensures RowFits(i, after[i]) && SamePayment(after[i], l.rows[i])
    {
      AdoptRowFits(i, l.rows[i], bill, cadence, dates, amount);
    }
    hide Protected, Safe, ScheduleKey, RowFits, SamePayment;
    PaymentsUntouched(l.rows, after);
    forall i, j | i in after && j in after && i != j && after[i].bill == after[j].bill
      ensures after[i].key != after[j].key && after[i].dueDate != after[j].dueDate
    {
      if Adoptable(l.rows[i], bill) && l.rows[i].dueDate in dates {
        AdoptedApart(l, bill, cadence, today, dates, amount, i, j);
      } else if Adoptable(l.rows[j], bill) && l.rows[j].dueDate in dates {
        AdoptedApart(l, bill, cadence, today, dates, amount, j, i);
      }
    }
  }

  lemma AdoptRowFits(id: nat, r: Occurrence, bill: nat, cadence: Cadence, dates: set<Day>, amount: int)
    requires RowFits(id, r)
    ensures var after := AdoptRow(r, bill, cadence, dates, amount);
            RowFits(id, after) && SamePayment(after, r)
  {
  }

  lemma AdoptedApart(l: Ledger, bill: nat, cadence: Cadence, today: Day, dates: set<Day>, amount: int, i: nat, j: nat)
    requires Inv(l)
    requires forall k :: k in l.rows && l.rows[k].bill == bill && !Protected(l.rows[k], today) ==> Adoptable(l.rows[k], bill)
    requires forall d :: d in dates ==> Safe(l.rows, bill, cadence, today, d)
    requires forall d, e :: d in dates && e in dates && d != e ==> ScheduleKey(cadence, d) != ScheduleKey(cadence, e)
    requires i in l.rows && j in l.rows && i != j && l.rows[i].bill == l.rows[j].bill
    requires Adoptable(l.rows[i], bill) && l.rows[i].dueDate in dates
    ensures var after := AdoptAll(l.rows, bill, cadence, dates, amount); after[i].key != after[j].key
  {
    var d := l.rows[i].dueDate;
    if !(Adoptable(l.rows[j], bill) && l.rows[j].dueDate in dates) && Protected(l.rows[j], today) {
      assert Safe(l.rows, bill, cadence, today, d);
    }
  }

  /** The adoption loop: one statement a date. */
  function AdoptDates(rows: Rows, bill: nat, cadence: Cadence, dates: seq<Day>, amount: int): Option<Rows> {
    if dates == [] then Some(rows)
    else
      match AdoptDates(rows, bill, cadence, dates[..|dates| - 1], amount)
      case None => None
      case Some(before) => AdoptRetiredScheduleDate(before, bill, cadence, dates[|dates| - 1], amount)
  }

  lemma AdoptNothing(rows: Rows, bill: nat, cadence: Cadence, amount: int)
    ensures AdoptAll(rows, bill, cadence, DateSet([]), amount) == rows
  {
  }

  lemma {:induction false} AdoptDatesSucceeds(l: Ledger, bill: nat, cadence: Cadence, today: Day, dates: seq<Day>,
        amount: int)
    requires Inv(l)
    requires forall i :: i in l.rows && l.rows[i].bill == bill && !Protected(l.rows[i], today) ==> Adoptable(l.rows[i], bill)
    requires forall d :: d in dates ==> Safe(l.rows, bill, cadence, today, d)
    requires Schedule(dates, cadence)
    ensures AdoptDates(l.rows, bill, cadence, dates, amount) == Some(AdoptAll(l.rows, bill, cadence, DateSet(dates), amount))
  {
    hide Protected, Safe, Adoptable, ScheduleKey, RowsFit, Unique, OneBillPerPayment, DateSet;
    if dates == [] {
      AdoptNothing(l.rows, bill, cadence, amount);
    } else {
      var front, date := dates[..|dates| - 1], dates[|dates| - 1];
      ScheduleSet(dates, cadence);
      AdoptDatesSucceeds(l, bill, cadence, today, front, amount);
      AdoptStep(l.rows, bill, cadence, DateSet(front), date, amount);
      AdoptKeepsInv(l, bill, cadence, today, DateSet(dates), amount);
    }
  }

  // ------------------------------------------------------------ the status statements

  predicate Revivable(r: Occurrence, bill: nat, y: int, m: int) {
    && r.bill == bill && r.key == MonthKey(y, m) && r.status == Cancelled && !r.cancelledByEndDate
    && r.dateOverride == None && r.amountOverride == None && r.paymentOverride == None
    && r.linkedTxn == None && r.pendingTxn == None && r.markedPaidAt == None && r.paidAmount == None && r.confirmedPaidAt == None
  }

  /** `reviveCancelled`: back to upcoming, if nobody paid, matched or edited it. */
  function ReviveCancelled(rows: Rows, bill: nat, y: int, m: int): Rows {
    map i | i in rows :: ReviveRow(rows[i], bill, y, m)
  }

  function ReviveRow(r: Occurrence, bill: nat, y: int, m: int): Occurrence {
    if Revivable(r, bill, y, m) then r.(status := Upcoming) else r
  }

  /** `reconcileEndDate`: restore the end date's own cancellations that fit again, then cancel what is past it. */
  function ReconcileEndDate(rows: Rows, bill: nat, endDate: Option<Day>, today: Day): Rows {
    CancelPastEnd(RestoreCancelled(rows, bill, endDate, today), bill, endDate, today)
  }

  function RestoreRow(r: Occurrence, bill: nat, endDate: Option<Day>, today: Day): Occurrence {
    if r.bill == bill && !Before(r.EffectiveDate(), today) && r.status == Cancelled && r.cancelledByEndDate
       && (endDate.None? || AtMost(r.EffectiveDate(), endDate.value))
    then r.(status := Upcoming, cancelledByEndDate := false) else r
  }

  function RestoreCancelled(rows: Rows, bill: nat, endDate: Option<Day>, today: Day): Rows {
    map i | i in rows :: RestoreRow(rows[i], bill, endDate, today)
  }

  function CancelPastRow(r: Occurrence, bill: nat, endDate: Day, today: Day): Occurrence {
    if r.bill == bill && !Before(r.EffectiveDate(), today) && r.status == Upcoming && Before(endDate, r.EffectiveDate())
    then r.(status := Cancelled, cancelledByEndDate := true) else r
  }

  function CancelPastEnd(rows: Rows, bill: nat, endDate: Option<Day>, today: Day): Rows {
    if endDate.None? then rows else map i | i in rows :: CancelPastRow(rows[i], bill, endDate.value, today)
  }

  function CancelRow(r: Occurrence, bill: nat): Occurrence {
    if r.bill == bill && r.status == Upcoming then r.(status := Cancelled) else r
  }

  function CancelFuture(rows: Rows, bill: nat): Rows {
    map i | i in rows :: CancelRow(rows[i], bill)
  }

  function SweepRow(r: Occurrence, today: Day): Occurrence {
    if r.status == Upcoming && Before(r.EffectiveDate(), today) then r.(status := Overdue)
    else if r.status == Overdue && !Before(r.EffectiveDate(), today) then r.(status := Upcoming)
    else r
  }

  /** `sweepOverdue`: both updates of the sweep, over all the user's bills. */
  function SweepOverdue(rows: Rows, today: Day): Rows {
    map i | i in rows :: SweepRow(rows[i], today)
  }

  /** A row whose status alone changed, to one that fits it. */
  predicate StatusChange(id: nat, r: Occurrence, after: Occurrence) {
    after.bill == r.bill && after.key == r.key && after.dueDate == r.dueDate && SamePayment(after, r) && RowFits(id, after)
  }

  /** A statement that makes only such changes keeps the invariant. */
  lemma StatusesKeepInv(l: Ledger, after: Rows)
    requires Inv(l) && after.Keys == l.rows.Keys
    requires forall i :: i in after ==> StatusChange(i, l.rows[i], after[i])
    ensures Inv(l.(rows := after))
  {
    hide RowFits, SamePayment;
    PaymentsUntouched(l.rows, after);
    forall i, j | i in after && j in after && i != j && after[i].bill == after[j].bill
      ensures after[i].key != after[j].key && after[i].dueDate != after[j].dueDate
    {
      assert l.rows[i].bill == l.rows[j].bill;
    }
  }

  lemma ReviveKeepsInv(l: Ledger, bill: nat, y: int, m: int)
    requires Inv(l)
    ensures Inv(l.(rows := ReviveCancelled(l.rows, bill, y, m)))
  {
    hide Inv, StatusChange, ReviveRow;
    forall i | i in l.rows
      ensures StatusChange(i, l.rows[i], ReviveRow(l.rows[i], bill, y, m))
    {
      RowOf(l, i);
      ReviveRowFits(i, l.rows[i], bill, y, m);
    }
    StatusesKeepInv(l, ReviveCancelled(l.rows, bill, y, m));
  }

  lemma RowOf(l: Ledger, i: nat)
    requires Inv(l) && i in l.rows
    ensures RowFits(i, l.rows[i])
  {
  }

  lemma ReviveRowFits(id: nat, r: Occurrence, bill: nat, y: int, m: int)
    requires RowFits(id, r)
    ensures StatusChange(id, r, ReviveRow(r, bill, y, m))
  {
  }

  lemma ReconcileKeepsInv(l: Ledger, bill: nat, endDate: Option<Day>, today: Day)
    requires Inv(l)
    ensures Inv(l.(rows := ReconcileEndDate(l.rows, bill, endDate, today)))
  {
    hide Inv, StatusChange, RestoreRow, CancelPastRow;
    var restored := l.(rows := RestoreCancelled(l.rows, bill, endDate, today));
    forall i | i in l.rows
      ensures StatusChange(i, l.rows[i], RestoreRow(l.rows[i], bill, endDate, today))
    {
      RowOf(l, i);
      RestoreRowFits(i, l.rows[i], bill, endDate, today);
    }
    StatusesKeepInv(l, restored.rows);
    if endDate.Some? {
      forall i | i in restored.rows
        ensures StatusChange(i, restored.rows[i], CancelPastRow(restored.rows[i], bill, endDate.value, today))
      {
        RowOf(restored, i);
        CancelPastRowFits(i, restored.rows[i], bill, endDate.value, today);
      }
      StatusesKeepInv(restored, CancelPastEnd(restored.rows, bill, endDate, today));
    }
  }

  lemma RestoreRowFits(id: nat, r: Occurrence, bill: nat, endDate: Option<Day>, today: Day)
    requires RowFits(id, r)
    ensures StatusChange(id, r, RestoreRow(r, bill, endDate, today))
  {
  }

  lemma CancelPastRowFits(id: nat, r: Occurrence, bill: nat, endDate: Day, today: Day)
    requires RowFits(id, r)
    ensures StatusChange(id, r, CancelPastRow(r, bill, endDate, today))
  {
  }

  lemma CancelKeepsInv(l: Ledger, bill: nat)
    requires Inv(l)
    ensures Inv(l.(rows := CancelFuture(l.rows, bill)))
  {
    forall i | i in l.rows
      ensures StatusChange(i, l.rows[i], CancelRow(l.rows[i], bill))
    {
      RowOf(l, i);
    }
    hide Inv, StatusChange, CancelRow;
    StatusesKeepInv(l, CancelFuture(l.rows, bill));
  }

  lemma SweepKeepsInv(l: Ledger, today: Day)
    requires Inv(l)
    ensures Inv(l.(rows := SweepOverdue(l.rows, today)))
  {
    hide Inv, StatusChange, SweepRow;
    forall i | i in l.rows
      ensures StatusChange(i, l.rows[i], SweepRow(l.rows[i], today))
    {
      RowOf(l, i);
      SweepRowFits(i, l.rows[i], today);
    }
    StatusesKeepInv(l, SweepOverdue(l.rows, today));
  }

  lemma SweepRowFits(id: nat, r: Occurrence, today: Day)
    requires RowFits(id, r)
    ensures StatusChange(id, r, SweepRow(r, today))
  {
  }

  /** `updateIfStatus` on one row: safe when the new row fits and uses no payment another row uses. */
  lemma RowUpdateKeepsInv(l: Ledger, id: nat, r: Occurrence)
    requires Inv(l) && id in l.rows && RowFits(id, r)
    requires r.bill == l.rows[id].bill && r.key == l.rows[id].key && r.dueDate == l.rows[id].dueDate
    requires forall i, txn :: i in l.rows && i != id && r.Uses(txn) ==> !l.rows[i].Uses(txn)
    ensures Inv(l.(rows := l.rows[id := r]))
  {
    var after := l.rows[id := r];
    forall i, j | i in after && j in after && i != j && after[i].bill == after[j].bill
      ensures after[i].key != after[j].key && after[i].dueDate != after[j].dueDate
    {
      assert l.rows[i].key != l.rows[j].key && l.rows[i].dueDate != l.rows[j].dueDate;
    }
  }
}
