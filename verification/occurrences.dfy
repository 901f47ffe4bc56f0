/**
 The bill occurrence table of one user: its rows, and the invariant every operation keeps
 (database/schema/schema.ts, bill_occurrences and bill_match_rejections).
 */
module Occurrences {
  import opened Wrappers
  import opened Calendar
  import RecurringEngine

  type Day = RecurringEngine.Day

  datatype Status = Upcoming | Overdue | Processing | Paid | Skipped | Cancelled

  /** What follows the bill id in an occurrence key: a month, a date, or a retired row's own id. */
  datatype Key = MonthKey(y: int, m: int) | DateKey(date: Date) | Retired(id: nat)

  datatype Occurrence = Occurrence(
    bill: nat,
    key: Key,
    dueDate: Day,
    dateOverride: Option<Day>,
    status: Status,
    cancelledByEndDate: bool,
    amount: int,
    amountOverride: Option<int>,
    paymentOverride: Option<int>,
    paidAmount: Option<int>,
    paidAccount: Option<nat>,
    pendingTxn: Option<nat>,
    linkedTxn: Option<nat>,
    markedPaidAt: Option<int>,
    confirmedPaidAt: Option<int>)
  {
    function EffectiveDate(): Day { dateOverride.GetOr(dueDate) }

    function EffectiveAmount(): int { amountOverride.GetOr(amount) }

    predicate Uses(txn: nat) { linkedTxn == Some(txn) || pendingTxn == Some(txn) }

    /** The statuses that still wait for a payment the user has not made. */
    predicate Open() { status == Upcoming || status == Overdue }

    predicate NoPayment() {
      paidAmount == None && paidAccount == None && pendingTxn == None && linkedTxn == None
      && markedPaidAt == None && confirmedPaidAt == None
    }
  }

  type Rows = map<nat, Occurrence>

  datatype Ledger = Ledger(rows: Rows, nextId: nat, rejected: set<(nat, nat)>)

  /** A key agrees with the baseline date; a retired row is a cancelled one nobody edited. */
  predicate KeyFits(id: nat, r: Occurrence) {
    match r.key
    case MonthKey(y, m) => r.dueDate.y == y && r.dueDate.m == m
    case DateKey(date) => r.dueDate == date
    case Retired(own) =>
      own == id && r.status == Cancelled && !r.cancelledByEndDate && r.dateOverride == None && r.amountOverride == None
  }

  /** Paid iff linked; processing iff held by a pending payment or marked by hand, not both; else no payment at all. */
  predicate PaymentFits(r: Occurrence) {
    match r.status
    case Paid => r.linkedTxn.Some? && r.pendingTxn == None && r.paidAmount.Some? && r.confirmedPaidAt.Some?
    case Processing =>
      && r.linkedTxn == None && r.confirmedPaidAt == None
      && r.pendingTxn.Some? == r.markedPaidAt.None?
      && r.paidAmount.Some? == r.paidAccount.Some? == r.markedPaidAt.Some?
    case _ => r.NoPayment()
  }

  predicate RowFits(id: nat, r: Occurrence) {
    KeyFits(id, r) && PaymentFits(r) && (r.cancelledByEndDate ==> r.status == Cancelled)
  }

  /** The two unique indexes of the table: (bill, key) and (bill, baseline date). */
  predicate Unique(rows: Rows) {
    forall i, j :: i in rows && j in rows && i != j && rows[i].bill == rows[j].bill ==>
                     rows[i].key != rows[j].key && rows[i].dueDate != rows[j].dueDate
  }

  /** No transaction is linked to, or held for, two occurrences. */
  ghost predicate OneBillPerPayment(rows: Rows) {
    forall i, j, txn :: i in rows && j in rows && rows[i].Uses(txn) && rows[j].Uses(txn) ==> i == j
  }

  ghost predicate RowsFit(l: Ledger) {
    forall i :: i in l.rows ==> i < l.nextId && RowFits(i, l.rows[i])
  }

  ghost predicate Inv(l: Ledger) {
    RowsFit(l) && Unique(l.rows) && OneBillPerPayment(l.rows)
  }

  predicate SamePayment(a: Occurrence, b: Occurrence) {
    && a.paidAmount == b.paidAmount && a.paidAccount == b.paidAccount
    && a.pendingTxn == b.pendingTxn && a.linkedTxn == b.linkedTxn
    && a.markedPaidAt == b.markedPaidAt && a.confirmedPaidAt == b.confirmedPaidAt
  }

  /** A statement that moves no payment keeps payments exclusive. */
  lemma PaymentsUntouched(rows: Rows, after: Rows)
    requires OneBillPerPayment(rows)
    requires forall i :: i in after ==> after[i].NoPayment() || (i in rows && SamePayment(after[i], rows[i]))
    ensures OneBillPerPayment(after)
  {
    forall i, j, txn | i in after && j in after && after[i].Uses(txn) && after[j].Uses(txn)
      ensures i == j
    {
      assert rows[i].Uses(txn) && rows[j].Uses(txn);
    }
  }
}
