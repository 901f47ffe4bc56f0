/**
 The guarded operations on one user's occurrences (src/modules/bills/bills.service.ts), and what holds in every
 state any run of them reaches. Each is one transaction: on an error nothing changes.
 */
module BillLifecycle {
  import opened Wrappers
  import opened Calendar
  import opened Occurrences
  import opened BillOccurrencesRepository
  import BillMaterialization
  import BillMaterializationProofs

  type Bill = BillMaterialization.Bill

  datatype Outcome = Done | NotFound | Conflict | Invalid

  datatype Payment = Payment(id: nat, account: nat, amount: int)

  function UnpaidStatus(r: Occurrence, today: Day): Status {
    if Before(r.EffectiveDate(), today) then Overdue else Upcoming
  }

  function Put(l: Ledger, id: nat, r: Occurrence): Ledger {
    l.(rows := l.rows[id := r])
  }

  /** `tryClaimAutoConfirmationTransaction`: the advisory lock, then no other occurrence using the payment. */
  predicate Claimed(rows: Rows, txn: nat, locked: bool, except: Option<nat>) {
    locked && forall i :: i in rows && Some(i) != except ==> !rows[i].Uses(txn)
  }

  function MarkPaid(l: Ledger, id: nat, account: nat, amount: int, accountExists: bool, now: int): (Ledger, Outcome) {
    if id !in l.rows then (l, NotFound)
    else if l.rows[id].amount < 0 || !l.rows[id].Open() then (l, Conflict)
    else if !accountExists then (l, Invalid)
    else (Put(l, id, l.rows[id].(status := Processing, paidAmount := Some(amount), paidAccount := Some(account), markedPaidAt := Some(now))), Done)
  }

  function Skip(l: Ledger, id: nat): (Ledger, Outcome) {
    if id !in l.rows then (l, NotFound)
    else if !l.rows[id].Open() then (l, Conflict)
    else (Put(l, id, l.rows[id].(status := Skipped)), Done)
  }

  function Cleared(r: Occurrence, status: Status): Occurrence {
    r.(status := status, linkedTxn := None, pendingTxn := None, paidAccount := None, paidAmount := None,
       markedPaidAt := None, confirmedPaidAt := None)
  }

  /** The payment an occurrence is matched to: the linked one, else the pending one. */
  function Matched(r: Occurrence): Option<nat> {
    if r.linkedTxn.Some? then r.linkedTxn else r.pendingTxn
  }

  function Unlink(l: Ledger, bill: nat, id: nat, today: Day): (Ledger, Outcome) {
    if id !in l.rows || l.rows[id].bill != bill then (l, NotFound)
    else if Matched(l.rows[id]).None? || l.rows[id].status !in {Paid, Processing} then (l, Conflict)
    else
      var r := l.rows[id];
      (Put(l, id, Cleared(r, UnpaidStatus(r, today))).(rejected := l.rejected + {(id, Matched(r).value)}), Done)
  }

  function Settled(r: Occurrence, p: Payment, payer: Option<nat>, now: int): Occurrence {
    r.(status := Paid, pendingTxn := None, linkedTxn := Some(p.id), paidAccount := payer, paidAmount := Some(p.amount), confirmedPaidAt := Some(now))
  }

  /** `offered`: a posted payment of the user within the link window, before other bills' use is looked at. */
  function Link(l: Ledger, bill: nat, id: nat, p: Payment, offered: bool, locked: bool, now: int): (Ledger, Outcome) {
    if id !in l.rows || l.rows[id].bill != bill then (l, NotFound)
    else
      var r := l.rows[id];
      if r.amount < 0 || r.status == Skipped || r.status == Cancelled then (l, Conflict)
      else if r.linkedTxn == Some(p.id) then (l, Done)
      else if !offered || !Claimed(l.rows, p.id, true, Some(id)) then (l, Invalid)
      else if !Claimed(l.rows, p.id, locked, Some(id)) then (l, Conflict)
      else
        var rejected := if Matched(r).Some? then l.rejected + {(id, Matched(r).value)} else l.rejected;
        (Put(l, id, Settled(r, p, Some(p.account), now)).(rejected := rejected - {(id, p.id)}), Done)
  }

  /** `confirmPaid`; `own` lets the row's own pending hold pass the claim. */
  function Confirm(l: Ledger, id: nat, p: Payment, own: bool, payer: Option<nat>, locked: bool, now: int): (Ledger,
        bool) {
    if !Claimed(l.rows, p.id, locked, if own then Some(id) else None) then (l, false)
    else if id !in l.rows || l.rows[id].status !in {Upcoming, Overdue, Processing} then (l, false)
    else (Put(l, id, Settled(l.rows[id], p, payer, now)), true)
  }

  /** A payment still pending holds the bill. */
  function Hold(l: Ledger, id: nat, txn: nat, locked: bool): (Ledger, bool) {
    if !Claimed(l.rows, txn, locked, None) || id !in l.rows || !l.rows[id].Open() then (l, false)
    else (Put(l, id, l.rows[id].(status := Processing, pendingTxn := Some(txn))), true)
  }

  /** A hold whose payment went away. The service calls it only for rows that had a pending payment. */
  function Revert(l: Ledger, id: nat, today: Day): (Ledger, bool) {
    if id !in l.rows || l.rows[id].status != Processing || l.rows[id].pendingTxn.None? then (l, false)
    else (Put(l, id, l.rows[id].(status := UnpaidStatus(l.rows[id], today), pendingTxn := None)), true)
  }

  /** An edit's field: left out, cleared, or set. */
  datatype Edit<+T> = Keep | Clear | Set(value: T)

  function Edited<T>(edit: Edit<T>, current: Option<T>): Option<T> {
    match edit
    case Keep => current
    case Clear => None
    case Set(v) => Some(v)
  }

  predicate ActiveOn(rows: Rows, bill: nat, except: nat, date: Day) {
    exists i :: i in rows && i != except && rows[i].bill == bill && rows[i].status in {Upcoming, Overdue, Processing}
                && rows[i].EffectiveDate() == date
  }

  /** The edited row; income keeps its sign. */
  function Overridden(r: Occurrence, date: Edit<Day>, amount: Edit<int>, payment: Edit<nat>): Occurrence {
    var signed := if amount.Set? && r.amount < 0 then Set(-amount.value) else amount;
    r.(dateOverride := Edited(date, r.dateOverride), amountOverride := Edited(signed, r.amountOverride),
       paymentOverride := Edited<int>(payment, r.paymentOverride))
  }

  /** The guards of `overrideOccurrence`; `cardBill` and `forecastTaken` are the service's other lookups. */
  function OverrideGuard(rows: Rows, bill: nat, id: nat, date: Edit<Day>, amount: Edit<int>, payment: Edit<nat>,
                         endDate: Option<Day>, cardBill: bool, forecastTaken: bool): (outcome: Outcome)
    ensures outcome.Done? ==> id in rows && rows[id].Open()
  {
    if id !in rows || rows[id].bill != bill then NotFound
    else if !rows[id].Open() then Conflict
    else if !payment.Keep? && !cardBill then Invalid
    else
      var due := Overridden(rows[id], date, amount, payment).EffectiveDate();
      if endDate.Some? && Before(endDate.value, due) then Invalid
      else if due != rows[id].EffectiveDate() && (ActiveOn(rows, bill, id, due) || forecastTaken) then Conflict
      else Done
  }

  function Override(l: Ledger, bill: nat, id: nat, date: Edit<Day>, amount: Edit<int>, payment: Edit<nat>,
                    endDate: Option<Day>, cardBill: bool, forecastTaken: bool): (Ledger, Outcome) {
    var outcome := OverrideGuard(l.rows, bill, id, date, amount, payment, endDate, cardBill, forecastTaken);
    if outcome.Done? then (Put(l, id, Overridden(l.rows[id], date, amount, payment)), Done) else (l, outcome)
  }

  // ------------------------------------------------------------------------- runs

  datatype Step =
    | DoMarkPaid(id: nat, account: nat, amount: int, accountExists: bool, now: int)
    | DoSkip(id: nat)
    | DoUnlink(bill: nat, id: nat, today: Day)
    | DoLink(bill: nat, id: nat, payment: Payment, offered: bool, locked: bool, now: int)
    | DoConfirm(id: nat, payment: Payment, own: bool, payer: Option<nat>, locked: bool, now: int)
    | DoHold(id: nat, txn: nat, locked: bool)
    | DoRevert(id: nat, today: Day)
    | DoOverride(bill: nat, id: nat, date: Edit<Day>, amountEdit: Edit<int>, paymentEdit: Edit<nat>, endDate: Option<Day>, cardBill: bool, forecastTaken: bool)
    | DoReconcile(bill: nat, endDate: Option<Day>, today: Day)
    | DoCancelFuture(bill: nat)
    | DoSweep(today: Day)
    | DoMaterialize(setup: Bill, today: Day, months: int, reschedule: bool)

  function Apply(l: Ledger, step: Step): Ledger {
    match step
    case DoMarkPaid(id, account, amount, accountExists, now) => MarkPaid(l, id, account, amount, accountExists, now).0
    case DoSkip(id) => Skip(l, id).0
    case DoUnlink(bill, id, today) => Unlink(l, bill, id, today).0
    case DoLink(bill, id, p, offered, locked, now) => Link(l, bill, id, p, offered, locked, now).0
    case DoConfirm(id, p, own, payer, locked, now) => Confirm(l, id, p, own, payer, locked, now).0
    case DoHold(id, txn, locked) => Hold(l, id, txn, locked).0
    case DoRevert(id, today) => Revert(l, id, today).0
    case DoOverride(bill, id, date, amount, payment, endDate, cardBill, forecastTaken) =>
      Override(l, bill, id, date, amount, payment, endDate, cardBill, forecastTaken).0
    case DoReconcile(bill, endDate, today) => l.(rows := ReconcileEndDate(l.rows, bill, endDate, today))
    case DoCancelFuture(bill) => l.(rows := CancelFuture(l.rows, bill))
    case DoSweep(today) => l.(rows := SweepOverdue(l.rows, today))
    case DoMaterialize(b, today, months, reschedule) =>
      BillMaterialization.MaterializeBill(l, b, today, months, reschedule).GetOr(l)
  }

  function Run(l: Ledger, steps: seq<Step>): Ledger {
    if steps == [] then l else Apply(Run(l, steps[..|steps| - 1]), steps[|steps| - 1])
  }

  const EMPTY: Ledger := Ledger(map[], 0, {})

  /** One row changed by a payment step keeps the invariant when the payments it uses are its own or claimed. */
  lemma PutKeepsInv(l: Ledger, id: nat, r: Occurrence)
    requires Inv(l) && id in l.rows && RowFits(id, r)
    requires r.bill == l.rows[id].bill && r.key == l.rows[id].key && r.dueDate == l.rows[id].dueDate
    requires forall txn :: r.Uses(txn) ==> l.rows[id].Uses(txn) || Claimed(l.rows, txn, true, Some(id))
    ensures Inv(Put(l, id, r))
  {
    hide RowFits;
    forall i, txn | i in l.rows && i != id && r.Uses(txn)
      ensures !l.rows[i].Uses(txn)
    {
      assert l.rows[id].Uses(txn) && l.rows[i].Uses(txn) ==> i == id;
    }
    RowUpdateKeepsInv(l, id, r);
  }

  lemma ClaimWeakens(rows: Rows, txn: nat, locked: bool, except: Option<nat>, id: nat)
    requires Claimed(rows, txn, locked, except) && (except == None || except == Some(id))
    ensures Claimed(rows, txn, true, Some(id))
  {
  }

  lemma SettledKeepsInv(l: Ledger, id: nat, p: Payment, payer: Option<nat>, now: int)
    requires Inv(l) && id in l.rows && l.rows[id].status !in {Skipped, Cancelled}
    requires Claimed(l.rows, p.id, true, Some(id))
    ensures Inv(Put(l, id, Settled(l.rows[id], p, payer, now)))
  {
    assert RowFits(id, l.rows[id]);
    PutKeepsInv(l, id, Settled(l.rows[id], p, payer, now));
  }

  lemma RejectionsFree(l: Ledger, rejected: set<(nat, nat)>)
    requires Inv(l)
    ensures Inv(l.(rejected := rejected))
  {
  }

  lemma ApplyKeepsInv(l: Ledger, step: Step)
    requires Inv(l)
    ensures Inv(Apply(l, step))
  {
    hide RowFits, Unique, OneBillPerPayment, BillMaterialization.MaterializeBill;
    match step {
      case DoMarkPaid(id, account, amount, accountExists, now) => MarkPaidKeepsInv(l, id, account, amount, accountExists, now);
      case DoSkip(id) => SkipKeepsInv(l, id);
      case DoUnlink(bill, id, today) => UnlinkKeepsInv(l, bill, id, today);
      case DoLink(bill, id, p, offered, locked, now) => LinkKeepsInv(l, bill, id, p, offered, locked, now);
      case DoConfirm(id, p, own, payer, locked, now) => ConfirmKeepsInv(l, id, p, own, payer, locked, now);
      case DoHold(id, txn, locked) => HoldKeepsInv(l, id, txn, locked);
      case DoRevert(id, today) => RevertKeepsInv(l, id, today);
      case DoOverride(bill, id, date, amount, payment, endDate, cardBill, forecastTaken) =>
        OverrideKeepsInv(l, bill, id, date, amount, payment, endDate, cardBill, forecastTaken);
      case DoReconcile(bill, endDate, today) => ReconcileKeepsInv(l, bill, endDate, today);
      case DoCancelFuture(bill) => CancelKeepsInv(l, bill);
      case DoSweep(today) => SweepKeepsInv(l, today);
      case DoMaterialize(b, today, months, reschedule) => BillMaterializationProofs.MaterializeSafe(l, b, today, months, reschedule);
    }
  }

  lemma MarkPaidKeepsInv(l: Ledger, id: nat, account: nat, amount: int, accountExists: bool, now: int)
    requires Inv(l)
    ensures Inv(MarkPaid(l, id, account, amount, accountExists, now).0)
  {
    if MarkPaid(l, id, account, amount, accountExists, now).1.Done? {
      assert RowFits(id, l.rows[id]);
      PutKeepsInv(l, id, MarkPaid(l, id, account, amount, accountExists, now).0.rows[id]);
    }
  }

  lemma SkipKeepsInv(l: Ledger, id: nat)
    requires Inv(l)
    ensures Inv(Skip(l, id).0)
  {
    if Skip(l, id).1.Done? {
      assert RowFits(id, l.rows[id]);
      PutKeepsInv(l, id, Skip(l, id).0.rows[id]);
    }
  }

  lemma UnlinkKeepsInv(l: Ledger, bill: nat, id: nat, today: Day)
    requires Inv(l)
    ensures Inv(Unlink(l, bill, id, today).0)
  {
    if Unlink(l, bill, id, today).1.Done? {
      assert RowFits(id, l.rows[id]);
      PutKeepsInv(l, id, Cleared(l.rows[id], UnpaidStatus(l.rows[id], today)));
      RejectionsFree(Put(l, id, Cleared(l.rows[id], UnpaidStatus(l.rows[id], today))), Unlink(l, bill, id, today).0.rejected);
    }
  }

  lemma LinkKeepsInv(l: Ledger, bill: nat, id: nat, p: Payment, offered: bool, locked: bool, now: int)
    requires Inv(l)
    ensures Inv(Link(l, bill, id, p, offered, locked, now).0)
  {
    var r := Link(l, bill, id, p, offered, locked, now);
    if r.1.Done? && l.rows[id].linkedTxn != Some(p.id) {
      ClaimWeakens(l.rows, p.id, locked, Some(id), id);
      SettledKeepsInv(l, id, p, Some(p.account), now);
      RejectionsFree(Put(l, id, Settled(l.rows[id], p, Some(p.account), now)), r.0.rejected);
    }
  }

  lemma ConfirmKeepsInv(l: Ledger, id: nat, p: Payment, own: bool, payer: Option<nat>, locked: bool, now: int)
    requires Inv(l)
    ensures Inv(Confirm(l, id, p, own, payer, locked, now).0)
  {
    if Confirm(l, id, p, own, payer, locked, now).1 {
      ClaimWeakens(l.rows, p.id, locked, if own then Some(id) else None, id);
      SettledKeepsInv(l, id, p, payer, now);
    }
  }

  lemma HoldKeepsInv(l: Ledger, id: nat, txn: nat, locked: bool)
    requires Inv(l)
    ensures Inv(Hold(l, id, txn, locked).0)
  {
    if Hold(l, id, txn, locked).1 {
      assert RowFits(id, l.rows[id]);
      ClaimWeakens(l.rows, txn, locked, None, id);
      PutKeepsInv(l, id, Hold(l, id, txn, locked).0.rows[id]);
    }
  }

  lemma RevertKeepsInv(l: Ledger, id: nat, today: Day)
    requires Inv(l)
    ensures Inv(Revert(l, id, today).0)
  {
    if Revert(l, id, today).1 {
      assert RowFits(id, l.rows[id]);
      PutKeepsInv(l, id, Revert(l, id, today).0.rows[id]);
    }
  }

  lemma OverrideKeepsInv(l: Ledger, bill: nat, id: nat, date: Edit<Day>, amount: Edit<int>, payment: Edit<nat>,
                         endDate: Option<Day>, cardBill: bool, forecastTaken: bool)
    requires Inv(l)
    ensures Inv(Override(l, bill, id, date, amount, payment, endDate, cardBill, forecastTaken).0)
  {
    var r := Override(l, bill, id, date, amount, payment, endDate, cardBill, forecastTaken);
    if r.1.Done? {
      assert RowFits(id, l.rows[id]);
      PutKeepsInv(l, id, r.0.rows[id]);
    }
  }

  /** Every state a run reaches keeps the invariant. */
  lemma {:induction false} RunKeepsInv(l: Ledger, steps: seq<Step>)
    requires Inv(l)
    ensures Inv(Run(l, steps))
  {
    if steps != [] {
      RunKeepsInv(l, steps[..|steps| - 1]);
      ApplyKeepsInv(Run(l, steps[..|steps| - 1]), steps[|steps| - 1]);
    }
  }

  /** In every state reachable from an empty table, the status of a row says exactly which payment fields it has. */
  lemma StatusTellsPayment(steps: seq<Step>, i: nat)
    requires i in Run(EMPTY, steps).rows
    ensures var r := Run(EMPTY, steps).rows[i];
            && (r.status == Paid <==> r.linkedTxn.Some?)
            && (r.status == Processing <==> r.linkedTxn == None && (r.pendingTxn.Some? != r.markedPaidAt.Some?))
            && (r.status == Processing ==> r.pendingTxn.Some? || (r.markedPaidAt.Some? && r.paidAmount.Some? && r.paidAccount.Some?))
            && (r.status in {Upcoming, Overdue, Skipped, Cancelled} <==> r.NoPayment())
  {
    RunKeepsInv(EMPTY, steps);
    assert RowFits(i, Run(EMPTY, steps).rows[i]);
  }

  /** In every reachable state, one bank transaction settles or holds at most one occurrence of the user. */
  lemma OnePaymentOneBill(steps: seq<Step>, i: nat, j: nat, txn: nat)
    requires var rows := Run(EMPTY, steps).rows;
             i in rows && j in rows && rows[i].Uses(txn) && rows[j].Uses(txn)
    ensures i == j
  {
    RunKeepsInv(EMPTY, steps);
  }

  /** In every reachable state, no two occurrences of a bill share a key or a baseline date, and materialising can never fail. */
  lemma KeysAndDatesUnique(steps: seq<Step>, b: Bill, today: Day, months: int, reschedule: bool)
    ensures Unique(Run(EMPTY, steps).rows)
    ensures BillMaterialization.MaterializeBill(Run(EMPTY, steps), b, today, months, reschedule).Some?
  {
    hide BillMaterialization.MaterializeBill;
    RunKeepsInv(EMPTY, steps);
    BillMaterializationProofs.MaterializeSafe(Run(EMPTY, steps), b, today, months, reschedule);
  }

  // ------------------------------------------------------------- what one call undoes

  /** Unlinking right after an automatic confirmation gives the row back as it was, and remembers the refusal. */
  lemma UnlinkUndoesConfirm(l: Ledger, id: nat, p: Payment, payer: Option<nat>, locked: bool, now: int, today: Day)
    requires Inv(l) && id in l.rows && l.rows[id].Open() && l.rows[id].status == UnpaidStatus(l.rows[id], today)
    requires Confirm(l, id, p, false, payer, locked, now).1
    ensures Unlink(Confirm(l, id, p, false, payer, locked, now).0, l.rows[id].bill, id, today)
            == (l.(rejected := l.rejected + {(id, p.id)}), Done)
  {
    assert RowFits(id, l.rows[id]);
    var after := Unlink(Confirm(l, id, p, false, payer, locked, now).0, l.rows[id].bill, id, today).0;
    assert after.rows[id] == l.rows[id];
    assert after.rows == l.rows;
  }

  /** Unlinking a payment the user just linked gives the row back as it was, and remembers the refusal. */
  lemma UnlinkUndoesLink(l: Ledger, id: nat, p: Payment, offered: bool, locked: bool, now: int, today: Day)
    requires Inv(l) && id in l.rows && l.rows[id].Open() && l.rows[id].status == UnpaidStatus(l.rows[id], today)
    requires Link(l, l.rows[id].bill, id, p, offered, locked, now).1 == Done
    ensures Unlink(Link(l, l.rows[id].bill, id, p, offered, locked, now).0, l.rows[id].bill, id, today)
            == (l.(rejected := l.rejected + {(id, p.id)}), Done)
  {
    assert RowFits(id, l.rows[id]);
    var after := Unlink(Link(l, l.rows[id].bill, id, p, offered, locked, now).0, l.rows[id].bill, id, today).0;
    assert after.rows[id] == l.rows[id];
    assert after.rows == l.rows;
    assert after.rejected == l.rejected + {(id, p.id)};
  }

  /** Linking one payment after another leaves only the second, refuses the first, and linking it again changes nothing. */
  lemma RelinkReplaces(l: Ledger, bill: nat, id: nat, p: Payment, q: Payment, locked: bool, now: int)
    requires Inv(l) && id in l.rows && p.id != q.id
    requires l.rows[id].linkedTxn == Some(p.id)
    requires Link(l, bill, id, q, true, locked, now).1 == Done
    ensures var after := Link(l, bill, id, q, true, locked, now).0;
            && after.rows[id].linkedTxn == Some(q.id) && after.rows[id].paidAmount == Some(q.amount) && after.rows[id].paidAccount == Some(q.account)
            && (forall i :: i in after.rows ==> !after.rows[i].Uses(p.id))
            && (id, p.id) in after.rejected && (id, q.id) !in after.rejected
            && Link(after, bill, id, q, true, locked, now) == (after, Done)
  {
    assert RowFits(id, l.rows[id]);
    forall i | i in l.rows && i != id
      ensures !l.rows[i].Uses(p.id)
    {
      assert l.rows[id].Uses(p.id);
    }
  }

  /** A manual mark waits for the bank: confirming replaces the marked amount and account by the payment's and keeps the mark. */
  lemma MarkThenConfirm(l: Ledger, id: nat, account: nat, amount: int, marked: int, p: Payment, now: int)
    requires Inv(l) && id in l.rows && MarkPaid(l, id, account, amount, true, marked).1 == Done
    requires Claimed(l.rows, p.id, true, None)
    ensures var (after, done) := Confirm(MarkPaid(l, id, account, amount, true, marked).0, id, p, false, Some(p.account), true, now);
            && done && after.rows[id].status == Paid && after.rows[id].markedPaidAt == Some(marked)
            && after.rows[id].paidAmount == Some(p.amount) && after.rows[id].paidAccount == Some(p.account)
            && (forall i :: i in l.rows && i != id ==> after.rows[i] == l.rows[i])
  {
    assert RowFits(id, l.rows[id]);
  }

  /** Reverting a hold gives back the ledger from before it. */
  lemma RevertUndoesHold(l: Ledger, id: nat, txn: nat, locked: bool, today: Day)
    requires Inv(l) && id in l.rows && l.rows[id].status == UnpaidStatus(l.rows[id], today)
    requires Hold(l, id, txn, locked).1
    ensures Revert(Hold(l, id, txn, locked).0, id, today) == (l, true)
  {
    assert RowFits(id, l.rows[id]);
    var after := Revert(Hold(l, id, txn, locked).0, id, today).0;
    assert after.rows[id] == l.rows[id];
    assert after.rows == l.rows;
  }

  /** Cancelling and restoring around an end date: lifting the end date again restores every row it cancelled. */
  lemma LiftingEndDateRestores(l: Ledger, bill: nat, endDate: Day, today: Day)
    requires Inv(l)
    ensures ReconcileEndDate(ReconcileEndDate(l.rows, bill, Some(endDate), today), bill, None, today)
            == ReconcileEndDate(l.rows, bill, None, today)
  {
    hide RestoreRow, CancelPastRow, RowFits;
    var a, b := ReconcileEndDate(ReconcileEndDate(l.rows, bill, Some(endDate), today), bill, None, today),
                ReconcileEndDate(l.rows, bill, None, today);
    forall i | i in l.rows
      ensures a[i] == b[i]
    {
      LiftedRow(i, l.rows[i], bill, endDate, today);
    }
  }

  lemma LiftedRow(id: nat, r: Occurrence, bill: nat, endDate: Day, today: Day)
    requires RowFits(id, r)
    ensures var ended := CancelPastRow(RestoreRow(r, bill, Some(endDate), today), bill, endDate, today);
            RestoreRow(ended, bill, None, today) == RestoreRow(r, bill, None, today)
  {
  }

  /** The sweep makes every open row's status agree with the day, and changes nothing the second time. */
  lemma SweepSettles(l: Ledger, today: Day)
    ensures forall i :: i in l.rows && l.rows[i].Open() ==>
              SweepOverdue(l.rows, today)[i] == l.rows[i].(status := UnpaidStatus(l.rows[i], today))
    ensures SweepOverdue(SweepOverdue(l.rows, today), today) == SweepOverdue(l.rows, today)
  {
  }

  /** An accepted edit never moves a row onto the effective date of another row of the bill that awaits payment. */
  lemma OverrideAvoidsCollision(l: Ledger, bill: nat, id: nat, date: Edit<Day>, amount: Edit<int>, payment: Edit<nat>,
                                endDate: Option<Day>, cardBill: bool, forecastTaken: bool, j: nat)
    requires Override(l, bill, id, date, amount, payment, endDate, cardBill, forecastTaken).1 == Done
    requires j in l.rows && j != id && l.rows[j].bill == bill && l.rows[j].status in {Upcoming, Overdue, Processing}
    ensures var after := Override(l, bill, id, date, amount, payment, endDate, cardBill, forecastTaken).0;
            after.rows[id].EffectiveDate() == after.rows[j].EffectiveDate() ==> l.rows[id].EffectiveDate() == l.rows[j].EffectiveDate()
  {
  }
}
