/**
 What each operation on occurrences does to the table, field by field (src/modules/bills/bills.service.ts and
 bill-occurrences.repository.ts): when it is refused, which rows change, and to what.
 */
module BillEffects {
  import opened Wrappers
  import opened Calendar
  import opened Occurrences
  import opened BillOccurrencesRepository
  import opened BillLifecycle
  import opened BillHistory

  /** Nothing but this row may differ. */
  predicate OnlyRow(l: Ledger, after: Ledger, id: nat) {
    && after.nextId == l.nextId && after.rows.Keys == l.rows.Keys && id in l.rows
    && forall i :: i in l.rows && i != id ==> after.rows[i] == l.rows[i]
  }

  /** What the schedule and the user's edits say of a row. */
  predicate SamePlan(r: Occurrence, after: Occurrence) {
    && after.bill == r.bill && after.key == r.key && after.dueDate == r.dueDate && after.amount == r.amount
    && after.dateOverride == r.dateOverride && after.amountOverride == r.amountOverride && after.paymentOverride == r.paymentOverride
  }

  /** Whether a payment is linked to, or held for, a row other than this one. */
  predicate UsedElsewhere(rows: Rows, txn: nat, id: nat) {
    exists i :: i in rows && i != id && (rows[i].linkedTxn == Some(txn) || rows[i].pendingTxn == Some(txn))
  }

  /** The status of a row nobody has paid. */
  predicate Unpaid(r: Occurrence, today: Day) {
    r.status == if Before(if r.dateOverride.Some? then r.dateOverride.value else r.dueDate, today) then Overdue else Upcoming
  }

  // --------------------------------------------------------------- marking and skipping

  /** Marking paid by hand: the row waits for the bank, with the amount and account the user gave. */
  lemma MarkPaidDoes(l: Ledger, id: nat, account: nat, amount: int, accountExists: bool, now: int)
    requires Inv(l)
    ensures var (after, outcome) := MarkPaid(l, id, account, amount, accountExists, now);
            && (outcome == NotFound <==> id !in l.rows)
            && (outcome == Conflict <==> id in l.rows && (l.rows[id].amount < 0 || l.rows[id].status !in {Upcoming, Overdue}))
            && (outcome == Invalid <==> id in l.rows && l.rows[id].amount >= 0 && l.rows[id].status in {Upcoming, Overdue} && !accountExists)
            && (outcome != Done ==> after == l)
            && (outcome == Done ==>
                  && OnlyRow(l, after, id) && after.rejected == l.rejected && SamePlan(l.rows[id], after.rows[id])
                  && after.rows[id].status == Processing && after.rows[id].markedPaidAt == Some(now)
                  && after.rows[id].paidAmount == Some(amount) && after.rows[id].paidAccount == Some(account)
                  && after.rows[id].linkedTxn == None && after.rows[id].pendingTxn == None && after.rows[id].confirmedPaidAt == None)
  {
    if id in l.rows { RowOf(l, id); }
    hide Inv;
  }

  /**
   Skipping an open row is for good: after any further run it is that row, skipped, and the skipping itself touches
   no other row and no refusal.
   */
  lemma SkipIsForGood(l: Ledger, id: nat, steps: seq<Step>)
    requires Inv(l)
    ensures var (after, outcome) := Skip(l, id);
            && (outcome == NotFound <==> id !in l.rows)
            && (outcome == Conflict <==> id in l.rows && l.rows[id].status !in {Upcoming, Overdue})
            && (outcome == Done <==> id in l.rows && l.rows[id].status in {Upcoming, Overdue})
            && (outcome != Done ==> after == l)
            && (outcome == Done ==>
                  && OnlyRow(l, after, id) && after.rejected == l.rejected
                  && id in Run(after, steps).rows && Run(after, steps).rows[id] == l.rows[id].(status := Skipped))
  {
    if Skip(l, id).1 == Done {
      SkipKeepsInv(l, id);
      hide Inv, Run;
      SkippedForever(Skip(l, id).0, steps, id);
    }
  }

  // --------------------------------------------------------------- linking

  /** The payment a row is matched to, before a change. */
  predicate MatchedTo(r: Occurrence, txn: nat) {
    r.linkedTxn == Some(txn) || (r.linkedTxn.None? && r.pendingTxn == Some(txn))
  }

  predicate SettledBy(r: Occurrence, after: Occurrence, txn: nat, amount: int, payer: Option<nat>, now: int) {
    && SamePlan(r, after) && after.status == Paid && after.linkedTxn == Some(txn) && after.pendingTxn == None
    && after.paidAmount == Some(amount) && after.paidAccount == payer && after.confirmedPaidAt == Some(now)
    && after.markedPaidAt == r.markedPaidAt
  }

  /** Unlinking: the row is unpaid again by its date, all of its payment is gone, and its payment is refused from then on. */
  lemma UnlinkDoes(l: Ledger, bill: nat, id: nat, today: Day)
    requires Inv(l)
    ensures var (after, outcome) := Unlink(l, bill, id, today);
            && (outcome == NotFound <==> !(id in l.rows && l.rows[id].bill == bill))
            && (outcome == Conflict <==> id in l.rows && l.rows[id].bill == bill && l.rows[id].linkedTxn == None && l.rows[id].pendingTxn == None)
            && (outcome != Done ==> after == l)
            && (outcome == Done ==>
                  && OnlyRow(l, after, id) && SamePlan(l.rows[id], after.rows[id])
                  && Unpaid(after.rows[id], today) && after.rows[id].NoPayment()
                  && forall i: nat, t: nat :: (i, t) in after.rejected <==> (i, t) in l.rejected || (i == id && MatchedTo(l.rows[id], t)))
  {
    if id in l.rows { RowOf(l, id); }
    hide Inv;
  }

  /** Linking a payment the user picks: only that payment settles the row; the old match is refused and the new one allowed. */
  lemma LinkDoes(l: Ledger, bill: nat, id: nat, p: Payment, offered: bool, locked: bool, now: int)
    requires Inv(l)
    ensures var (after, outcome) := Link(l, bill, id, p, offered, locked, now);
            && (outcome == NotFound <==> !(id in l.rows && l.rows[id].bill == bill))
            && (outcome == Done <==>
                  && id in l.rows && l.rows[id].bill == bill && l.rows[id].amount >= 0 && l.rows[id].status !in {Skipped, Cancelled}
                  && (l.rows[id].linkedTxn == Some(p.id) || (offered && locked && !UsedElsewhere(l.rows, p.id, id))))
            && (outcome == Invalid <==>
                  && id in l.rows && l.rows[id].bill == bill && l.rows[id].amount >= 0 && l.rows[id].status !in {Skipped, Cancelled}
                  && l.rows[id].linkedTxn != Some(p.id) && (!offered || UsedElsewhere(l.rows, p.id, id)))
            && (outcome != Done ==> after == l)
            && (outcome == Done && l.rows[id].linkedTxn == Some(p.id) ==> after == l)
            && (outcome == Done && l.rows[id].linkedTxn != Some(p.id) ==>
                  && OnlyRow(l, after, id) && SettledBy(l.rows[id], after.rows[id], p.id, p.amount, Some(p.account), now)
                  && forall i: nat, t: nat :: (i, t) in after.rejected <==>
                       (i, t) != (id, p.id) && ((i, t) in l.rejected || (i == id && MatchedTo(l.rows[id], t))))
  {
    if id in l.rows { RowOf(l, id); }
    hide Inv;
  }

  // --------------------------------------------------------------- settling from the bank

  /** Automatic confirmation succeeds exactly on a row that waits, with a payment nobody else uses whose lock is free. */
  lemma ConfirmDoes(l: Ledger, id: nat, p: Payment, own: bool, payer: Option<nat>, locked: bool, now: int)
    requires Inv(l)
    ensures var (after, done) := Confirm(l, id, p, own, payer, locked, now);
            && (done <==>
                  && id in l.rows && l.rows[id].status in {Upcoming, Overdue, Processing} && locked && !UsedElsewhere(l.rows, p.id, id)
                  && (own || l.rows[id].pendingTxn != Some(p.id)))
            && (!done ==> after == l)
            && (done ==> OnlyRow(l, after, id) && after.rejected == l.rejected
                         && SettledBy(l.rows[id], after.rows[id], p.id, p.amount, payer, now))
  {
    if id in l.rows { RowOf(l, id); }
    hide Inv;
  }

  /** A pending payment holds exactly an open row, when no row uses it and its lock is free. */
  lemma HoldDoes(l: Ledger, id: nat, txn: nat, locked: bool)
    requires Inv(l)
    ensures var (after, done) := Hold(l, id, txn, locked);
            && (done <==> id in l.rows && l.rows[id].status in {Upcoming, Overdue} && locked && !UsedElsewhere(l.rows, txn, id))
            && (!done ==> after == l)
            && (done ==>
                  && OnlyRow(l, after, id) && after.rejected == l.rejected && SamePlan(l.rows[id], after.rows[id])
                  && after.rows[id].status == Processing && after.rows[id].pendingTxn == Some(txn)
                  && after.rows[id].linkedTxn == None && after.rows[id].markedPaidAt == None && after.rows[id].confirmedPaidAt == None
                  && after.rows[id].paidAmount == None && after.rows[id].paidAccount == None)
  {
    if id in l.rows { RowOf(l, id); }
    hide Inv;
  }

  /** Giving up a hold: the row is unpaid again by its date, with no payment left. */
  lemma RevertDoes(l: Ledger, id: nat, today: Day)
    requires Inv(l)
    ensures var (after, done) := Revert(l, id, today);
            && (done <==> id in l.rows && l.rows[id].status == Processing && l.rows[id].pendingTxn.Some?)
            && (!done ==> after == l)
            && (done ==> OnlyRow(l, after, id) && after.rejected == l.rejected && SamePlan(l.rows[id], after.rows[id])
                         && Unpaid(after.rows[id], today) && after.rows[id].NoPayment())
  {
    if id in l.rows { RowOf(l, id); }
    hide Inv;
  }

  // --------------------------------------------------------------- editing

  /** The date a row falls due on, edits included. */
  function DueOn(r: Occurrence): Day {
    if r.dateOverride.Some? then r.dateOverride.value else r.dueDate
  }

  /** An edited field: left out, cleared or set. */
  predicate EditedTo<T(==)>(edit: Edit<T>, before: Option<T>, after: Option<T>) {
    && (edit.Keep? ==> after == before) && (edit.Clear? ==> after.None?) && (edit.Set? ==> after == Some(edit.value))
  }

  /** Who else of the bill still waits on that date. */
  predicate TakenDate(rows: Rows, bill: nat, id: nat, date: Day) {
    exists i :: i in rows && i != id && rows[i].bill == bill && rows[i].status in {Upcoming, Overdue, Processing} && DueOn(rows[i]) == date
  }

  /**
   An edit is accepted exactly on an open row of the bill, not past the end date, not onto a day another row waits on;
   it changes the three edits alone, and an amount given for income stays income.
   */
  lemma OverrideDoes(l: Ledger, bill: nat, id: nat, date: Edit<Day>, amount: Edit<int>, payment: Edit<nat>,
                     endDate: Option<Day>, cardBill: bool, forecastTaken: bool)
    ensures var (after, outcome) := Override(l, bill, id, date, amount, payment, endDate, cardBill, forecastTaken);
            && (outcome == NotFound <==> !(id in l.rows && l.rows[id].bill == bill))
            && (outcome != Done ==> after == l)
            && (outcome == Done ==>
                  && OnlyRow(l, after, id) && after.rejected == l.rejected
                  && after.rows[id] == l.rows[id].(dateOverride := after.rows[id].dateOverride, amountOverride := after.rows[id].amountOverride,
                                                   paymentOverride := after.rows[id].paymentOverride)
                  && EditedTo(date, l.rows[id].dateOverride, after.rows[id].dateOverride)
                  && EditedTo(payment, l.rows[id].paymentOverride, after.rows[id].paymentOverride)
                  && (amount.Set? ==> after.rows[id].amountOverride == Some(if l.rows[id].amount < 0 then -amount.value else amount.value))
                  && (!amount.Set? ==> EditedTo(amount, l.rows[id].amountOverride, after.rows[id].amountOverride)))
    ensures id in l.rows && l.rows[id].bill == bill ==>
              var due := if date.Keep? then DueOn(l.rows[id]) else if date.Clear? then l.rows[id].dueDate else date.value;
              var outcome := Override(l, bill, id, date, amount, payment, endDate, cardBill, forecastTaken).1;
              && (outcome == Conflict <==>
                    || l.rows[id].status !in {Upcoming, Overdue}
                    || ((payment.Keep? || cardBill) && !(endDate.Some? && Before(endDate.value, due))
                        && due != DueOn(l.rows[id]) && (TakenDate(l.rows, bill, id, due) || forecastTaken)))
              && (outcome == Invalid <==>
                    l.rows[id].status in {Upcoming, Overdue} && ((!payment.Keep? && !cardBill) || (endDate.Some? && Before(endDate.value, due))))
  {
  }

  // --------------------------------------------------------------- end dates, cancelling, the sweep

  /** Rows an end date decides about: still to come, and upcoming or cancelled by an end date. */
  predicate UpToEndDate(r: Occurrence, bill: nat, today: Day) {
    r.bill == bill && !Before(DueOn(r), today) && (r.status == Upcoming || (r.status == Cancelled && r.cancelledByEndDate))
  }

  /**
   After an end date is set, moved or lifted, each such row is upcoming up to the end date, the day itself included,
   and cancelled by it after; every other row is as it was.
   */
  lemma ReconcileDoes(l: Ledger, bill: nat, endDate: Option<Day>, today: Day, i: nat)
    requires Inv(l) && i in l.rows
    ensures var after := ReconcileEndDate(l.rows, bill, endDate, today);
            && after.Keys == l.rows.Keys
            && after[i] == if !UpToEndDate(l.rows[i], bill, today) then l.rows[i]
                           else if endDate.None? || AtMost(DueOn(l.rows[i]), endDate.value) then l.rows[i].(status := Upcoming, cancelledByEndDate := false)
                           else l.rows[i].(status := Cancelled, cancelledByEndDate := true)
  {
    RowOf(l, i);
    hide Inv;
  }

  /** Cancelling a bill's future: its upcoming rows are cancelled for good by the user, not by an end date. */
  lemma CancelDoes(l: Ledger, bill: nat, i: nat)
    requires Inv(l) && i in l.rows
    ensures var after := CancelFuture(l.rows, bill);
            && after.Keys == l.rows.Keys
            && (l.rows[i].bill == bill && l.rows[i].status == Upcoming ==>
                  after[i] == l.rows[i].(status := Cancelled) && !after[i].cancelledByEndDate)
            && (l.rows[i].bill != bill || l.rows[i].status != Upcoming ==> after[i] == l.rows[i])
  {
    RowOf(l, i);
    hide Inv;
  }

  /** The sweep: an upcoming row that is late becomes overdue, an overdue one that is not becomes upcoming, no other changes. */
  lemma SweepDoes(l: Ledger, today: Day, i: nat)
    requires i in l.rows
    ensures var after := SweepOverdue(l.rows, today);
            && after.Keys == l.rows.Keys
            && (l.rows[i].status in {Upcoming, Overdue} ==>
                  after[i] == l.rows[i].(status := if Before(DueOn(l.rows[i]), today) then Overdue else Upcoming))
            && (l.rows[i].status !in {Upcoming, Overdue} ==> after[i] == l.rows[i])
  {
  }

  // --------------------------------------------------------------- the schedule's statements

  /** Retiring takes exactly the bill's rows still to come that nobody edited or paid: upcoming, cancelled by an end date, or retired before. */
  lemma RetireDoes(l: Ledger, bill: nat, today: Day, i: nat)
    requires Inv(l) && i in l.rows
    ensures var r, after := l.rows[i], RetireFutureSchedule(l.rows, bill, today);
            && after.Keys == l.rows.Keys
            && (r.bill == bill && !Before(r.dueDate, today) && r.dateOverride.None? && r.amountOverride.None?
                && (r.status == Upcoming || (r.status == Cancelled && (r.cancelledByEndDate || r.key.Retired?)))
                ==> after[i] == r.(status := Cancelled, cancelledByEndDate := false, key := Retired(i)))
            && (!(r.bill == bill && !Before(r.dueDate, today) && r.dateOverride.None? && r.amountOverride.None?
                  && (r.status == Upcoming || (r.status == Cancelled && (r.cancelledByEndDate || r.key.Retired?))))
                ==> after[i] == r)
  {
    RowOf(l, i);
    hide Inv;
  }

  /** Reviving takes exactly the bill's cancelled row of the month that neither an end date nor the user's edits nor a payment explain. */
  lemma ReviveDoes(l: Ledger, bill: nat, y: int, m: int, i: nat)
    requires Inv(l) && i in l.rows
    ensures var r, after := l.rows[i], ReviveCancelled(l.rows, bill, y, m);
            && after.Keys == l.rows.Keys
            && (r.bill == bill && r.key == MonthKey(y, m) && r.status == Cancelled && !r.cancelledByEndDate
                && r.dateOverride.None? && r.amountOverride.None? && r.paymentOverride.None?
                ==> after[i] == r.(status := Upcoming))
            && (!(r.bill == bill && r.key == MonthKey(y, m) && r.status == Cancelled && !r.cancelledByEndDate
                  && r.dateOverride.None? && r.amountOverride.None? && r.paymentOverride.None?)
                ==> after[i] == r)
  {
    RowOf(l, i);
    hide Inv;
  }
}
