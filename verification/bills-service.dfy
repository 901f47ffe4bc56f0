/**
 The occurrence table and the service that works on it, step by step (src/modules/bills/bills.service.ts and
 bill-occurrences.repository.ts). Every method is proved to leave exactly the ledger its specification names.
 */
module BillsService {
  import opened Wrappers
  import opened Calendar
  import opened Occurrences
  import opened BillSchedule
  import opened RecurringEngine
  import opened BillMaterialization
  import opened BillLifecycle
  import opened BillReconciliation
  import opened MerchantMatch
  import opened MerchantMatchProofs
  import Statements = BillOccurrencesRepository
  import BillMaterializationProofs

  lemma {:induction false} InsertPrefix(l: Ledger, bill: nat, cadence: Cadence, dates: seq<Day>, amount: int, n: nat)
    requires n <= |dates| && Statements.InsertOccurrences(l, bill, cadence, dates[..n], amount).None?
    ensures Statements.InsertOccurrences(l, bill, cadence, dates, amount).None?
  {
    if n == |dates| {
      assert dates[..n] == dates;
    } else {
      assert dates[..|dates| - 1][..n] == dates[..n];
      InsertPrefix(l, bill, cadence, dates[..|dates| - 1], amount, n);
    }
  }

  lemma {:induction false} AdoptPrefix(rows: Rows, bill: nat, cadence: Cadence, dates: seq<Day>, amount: int, n: nat)
    requires n <= |dates| && Statements.AdoptDates(rows, bill, cadence, dates[..n], amount).None?
    ensures Statements.AdoptDates(rows, bill, cadence, dates, amount).None?
  {
    if n == |dates| {
      assert dates[..n] == dates;
    } else {
      assert dates[..|dates| - 1][..n] == dates[..n];
      AdoptPrefix(rows, bill, cadence, dates[..|dates| - 1], amount, n);
    }
  }

  predicate Repeats(cadence: Cadence, dates: seq<Day>, date: Day) {
    exists d :: d in dates && ScheduleKey(cadence, d) == ScheduleKey(cadence, date)
  }

  lemma InsertNone(l: Ledger, bill: nat, cadence: Cadence, amount: int)
    ensures Statements.InsertOccurrences(l, bill, cadence, [], amount) == Some(l)
  {
  }

  lemma InsertStep(l: Ledger, bill: nat, cadence: Cadence, dates: seq<Day>, amount: int, n: nat)
    requires n < |dates| && Statements.InsertOccurrences(l, bill, cadence, dates[..n], amount).Some?
    ensures var before := Statements.InsertOccurrences(l, bill, cadence, dates[..n], amount).value;
            var after := Statements.Upsert(before, bill, ScheduleKey(cadence, dates[n]), dates[n], amount);
            Statements.InsertOccurrences(l, bill, cadence, dates[..n + 1], amount)
            == if Repeats(cadence, dates[..n], dates[n]) || !Unique(after.rows) then None else Some(after)
  {
    hide Statements.Upsert, Unique, ScheduleKey;
    assert dates[..n + 1][..n] == dates[..n];
  }

  lemma PastStep(rows: Rows, bill: nat, cursor: Day, cadence: Cadence, today: Day)
    ensures Before(cursor, today) ==>
              var next := NextDateForCadence(cursor, cadence);
              && PastDates(rows, bill, cursor, cadence, today)
                 == (if KeepsPast(rows, bill, cursor, cadence, today) then [cursor] else []) + PastDates(rows, bill, next, cadence, today)
              && CatchUp(cursor, cadence, today) == CatchUp(next, cadence, today)
    ensures !Before(cursor, today) ==> PastDates(rows, bill, cursor, cadence, today) == [] && CatchUp(cursor, cadence, today) == cursor
  {
    hide NextDateForCadence, Gap, KeepsPast;
  }

  /** The sweep's first update, and its second. */
  function LateRow(r: Occurrence, today: Day): Occurrence {
    if r.status == Upcoming && Before(r.EffectiveDate(), today) then r.(status := Overdue) else r
  }

  function EarlyRow(r: Occurrence, today: Day): Occurrence {
    if r.status == Overdue && !Before(r.EffectiveDate(), today) then r.(status := Upcoming) else r
  }

  lemma SweepIsTwoUpdates(r: Occurrence, today: Day)
    ensures EarlyRow(LateRow(r, today), today) == Statements.SweepRow(r, today)
    ensures LateRow(r, today) == r || EarlyRow(LateRow(r, today), today) == LateRow(r, today)
    ensures LateRow(r, today) != r ==> Statements.SweepRow(r, today) != r
  {
  }

  function ChangedLate(rows: Rows, today: Day): set<nat> {
    set i | i in rows && LateRow(rows[i], today) != rows[i]
  }

  function ChangedEarly(rows: Rows, today: Day): set<nat> {
    set i | i in rows && EarlyRow(rows[i], today) != rows[i]
  }

  lemma SweepInTwo(rows: Rows, today: Day)
    ensures var mid := map i | i in rows :: LateRow(rows[i], today);
            && (map i | i in mid :: EarlyRow(mid[i], today)) == Statements.SweepOverdue(rows, today)
            && |ChangedLate(rows, today)| + |ChangedEarly(mid, today)| == |ChangedBySweep(rows, today)|
  {
    var mid := map i | i in rows :: LateRow(rows[i], today);
    forall i | i in rows
      ensures EarlyRow(mid[i], today) == Statements.SweepRow(rows[i], today)
    {
      SweepIsTwoUpdates(rows[i], today);
    }
    SweepCounts(rows, mid, today);
    hide LateRow, EarlyRow, Statements.SweepRow, ChangedLate, ChangedEarly, ChangedBySweep;
  }

  lemma SweepCounts(rows: Rows, mid: Rows, today: Day)
    requires mid.Keys == rows.Keys && forall i :: i in rows ==> mid[i] == LateRow(rows[i], today)
    ensures |ChangedLate(rows, today)| + |ChangedEarly(mid, today)| == |ChangedBySweep(rows, today)|
  {
    hide LateRow, EarlyRow, Statements.SweepRow;
    var late, early := ChangedLate(rows, today), ChangedEarly(mid, today);
    forall i | i in rows
      ensures !(i in late && i in early)
      ensures i in late + early <==> i in ChangedBySweep(rows, today)
    {
      SweepIsTwoUpdates(rows[i], today);
    }
    assert late + early == ChangedBySweep(rows, today) && late !! early;
  }

  function ChangedBySweep(rows: Rows, today: Day): set<nat> {
    set i | i in rows && Statements.SweepRow(rows[i], today) != rows[i]
  }

  lemma EditedDate(r: Occurrence, date: Edit<Day>, amount: Edit<int>, payment: Edit<nat>)
    ensures Overridden(r, date, amount, payment).EffectiveDate()
            == match date case Keep => r.EffectiveDate() case Clear => r.dueDate case Set(d) => d
  {
  }

  // ------------------------------------------------------------------ what the bank shows

  /**
   What the queries return: what became of held payments, the qualifying (occurrence, payment) pairs of the debit,
   card-side and pending lists, the split-series slots, and the payer to record for bills paid to a card or loan.
   */
  datatype Evidence = Evidence(
    fates: map<nat, Fate>,
    debits: seq<Candidate>,
    arrivals: seq<Candidate>,
    pendingDebits: seq<Candidate>,
    pendingArrivals: seq<Candidate>,
    slots: Slots,
    cardPayers: map<nat, Option<nat>>,
    payments: map<nat, Payment>)
  {
    /** A list pairs an occurrence with a payment once, and carries the payments it names. */
    ghost predicate Valid() {
      && Distinct(debits) && Distinct(arrivals) && Distinct(pendingDebits) && Distinct(pendingArrivals)
      && Covers(Bank(payments, map[], {}, 0), debits) && Covers(Bank(payments, map[], {}, 0), arrivals)
    }

    predicate Supports(i: nat, t: nat) {
      IsCandidate(debits, i, t) || IsCandidate(arrivals, i, t) || IsCandidate(pendingDebits, i, t) || IsCandidate(pendingArrivals, i, t)
    }
  }

  ghost predicate Covers(bank: Bank, cs: seq<Candidate>) {
    && (forall t :: t in bank.payments ==> bank.payments[t].id == t)
    && (forall c :: c in cs ==> c.transaction in bank.payments)
  }

  lemma CoveredPairs(bank: Bank, cs: seq<Candidate>, slots: Slots, pairs: map<nat, nat>)
    requires Covers(bank, cs) && forall o :: o in pairs ==> IsCandidate(cs, o, pairs[o])
    ensures bank.Fits(pairs)
  {
  }

  /** What one pass over posted payments leaves of a row. */
  ghost predicate PassedRow(l: Ledger, after: Ledger, settled: set<nat>, cs: seq<Candidate>, slots: Slots,
        bank: Bank, i: nat) {
    && i in l.rows && i in after.rows
    && (i !in settled ==> after.rows[i] == l.rows[i])
    && (i in settled ==>
          && Awaiting(l.rows[i])
          && exists t :: t in bank.payments && Paired(cs, slots, i, t)
                         && LinkedTo(l.rows[i], after.rows[i], i, bank.payments[t], bank))
  }

  /** The pairing gives `o` a payment that no row uses and no other session is claiming. */
  predicate Payable(l: Ledger, order: seq<nat>, cs: seq<Candidate>, slots: Slots, busy: set<nat>, o: nat, t: nat) {
    o in order && o in l.rows && Paired(cs, slots, o, t) && t !in busy && Free(l.rows, t)
  }

  /** Every payable pair of an occurrence still waiting is settled by that payment, with the payer the bank evidence names. */
  ghost predicate PayableLinked(l: Ledger, after: Ledger, among: set<nat>, cs: seq<Candidate>, slots: Slots, bank: Bank) {
    forall o: nat, t: nat :: o in among && o in l.rows && Awaiting(l.rows[o]) && Paired(cs, slots, o, t) && t !in bank.busy && Free(l.rows, t) ==>
      t in bank.payments && o in after.rows && LinkedTo(l.rows[o], after.rows[o], o, bank.payments[t], bank)
  }

  /** A pass over posted payments: it settles every payable pair, and leaves a row as it was or settled by a payment paired with it. */
  ghost predicate LinksPairs(l: Ledger, after: Ledger, among: set<nat>, cs: seq<Candidate>, slots: Slots, bank: Bank) {
    && after.rows.Keys == l.rows.Keys
    && (forall i :: i in l.rows ==> after.rows[i] == l.rows[i] || LinkedByPair(l, after, cs, slots, bank, i))
    && PayableLinked(l, after, among, cs, slots, bank)
  }

  ghost predicate LinkedByPair(l: Ledger, after: Ledger, cs: seq<Candidate>, slots: Slots, bank: Bank, i: nat)
    requires i in l.rows && i in after.rows
  {
    Awaiting(l.rows[i]) && exists t :: t in bank.payments && Paired(cs, slots, i, t)
                                     && LinkedTo(l.rows[i], after.rows[i], i, bank.payments[t], bank)
  }

  /** A pass over pending payments: the same, and the payment is held instead of linked. */
  ghost predicate HoldsPairs(l: Ledger, after: Ledger, among: set<nat>, cs: seq<Candidate>, slots: Slots, busy: set<nat>) {
    && after.rows.Keys == l.rows.Keys
    && (forall i :: i in l.rows ==> after.rows[i] == l.rows[i] || HeldByPair(l, after, cs, slots, i))
    && (forall o: nat, t: nat :: o in among && o in l.rows && l.rows[o].Open() && Paired(cs, slots, o, t) && t !in busy && Free(l.rows, t) ==>
          after.rows[o] == l.rows[o].(status := Processing, pendingTxn := Some(t)))
  }

  ghost predicate HeldByPair(l: Ledger, after: Ledger, cs: seq<Candidate>, slots: Slots, i: nat)
    requires i in l.rows && i in after.rows
  {
    l.rows[i].Open() && exists t: nat :: Paired(cs, slots, i, t) && after.rows[i] == l.rows[i].(status := Processing, pendingTxn := Some(t))
  }

  /** Money is due: the user's amount is positive, or without one the bill's. */
  predicate Owes(r: Occurrence) {
    match r.amountOverride
    case Some(amount) => amount > 0
    case None => r.amount > 0
  }

  /** The occurrences the card side may settle: a positive amount to a card or loan, still waiting and holding no payment. */
  function CardSide(l: Ledger, eligible: seq<nat>, evidence: Evidence): set<nat> {
    set i | i in eligible && i in l.rows && i in evidence.cardPayers
            && Awaiting(l.rows[i]) && l.rows[i].pendingTxn.None? && Owes(l.rows[i])
  }

  /** The occurrences a pending payment may hold. */
  function Holdable(l: Ledger, eligible: seq<nat>): set<nat> {
    set i | i in eligible && i in l.rows && l.rows[i].Open() && l.rows[i].pendingTxn.None? && Owes(l.rows[i])
  }

  function OnCard(l: Ledger, eligible: seq<nat>, evidence: Evidence): set<nat> {
    set i | i in Holdable(l, eligible) && i in evidence.cardPayers && !Suggested(evidence.pendingDebits, i)
  }

  /** The pairs a pending payment may make: a card-side one only where no pending debit qualifies. */
  function PendingOffer(l: Ledger, eligible: seq<nat>, evidence: Evidence): seq<Candidate> {
    Offered(evidence.pendingDebits, Holdable(l, eligible), l.rejected) + Offered(evidence.pendingArrivals, OnCard(l, eligible, evidence), l.rejected)
  }

  /** A card-side payment still pending holds only bills no pending debit qualifies for. */
  ghost predicate DebitsFirst(l: Ledger, after: Ledger, evidence: Evidence) {
    forall i: nat, t: nat :: NewUse(l, after, i, t) ==>
      IsCandidate(evidence.pendingDebits, i, t)
      || (IsCandidate(evidence.pendingArrivals, i, t) && i in evidence.cardPayers && !Suggested(evidence.pendingDebits, i))
  }

  lemma OfferedDebitsFirst(l: Ledger, after: Ledger, eligible: seq<nat>, evidence: Evidence)
    requires UsesCandidates(l, after, PendingOffer(l, eligible, evidence))
    ensures DebitsFirst(l, after, evidence)
  {
    var debits := Offered(evidence.pendingDebits, Holdable(l, eligible), l.rejected);
    var arrivals := Offered(evidence.pendingArrivals, OnCard(l, eligible, evidence), l.rejected);
    OfferedAre(evidence.pendingDebits, Holdable(l, eligible), l.rejected);
    OfferedAre(evidence.pendingArrivals, OnCard(l, eligible, evidence), l.rejected);
    hide NewUse, Offered, Holdable, Suggested;
    forall i: nat, t: nat | NewUse(l, after, i, t)
      ensures IsCandidate(evidence.pendingDebits, i, t)
              || (IsCandidate(evidence.pendingArrivals, i, t) && i in evidence.cardPayers && !Suggested(evidence.pendingDebits, i))
    {
      assert IsCandidate(debits + arrivals, i, t);
      var c: Candidate :| c in debits + arrivals && c.occurrence == i && c.transaction == t;
      assert c in debits || c in arrivals;
    }
  }

  lemma PassLinks(l: Ledger, after: Ledger, settled: set<nat>, order: seq<nat>, cs: seq<Candidate>, slots: Slots, bank: Bank)
    requires after.rows.Keys == l.rows.Keys && Covers(bank, cs)
    requires forall i :: i in l.rows ==> PassedRow(l, after, settled, cs, slots, bank, i)
    requires forall o: nat, t: nat :: Payable(l, order, cs, slots, bank.busy, o, t) && Awaiting(l.rows[o]) ==>
               o in settled && after.rows[o].linkedTxn == Some(t)
    ensures LinksPairs(l, after, Elements(order), cs, slots, bank)
  {
    hide Paired;
    forall i | i in l.rows
      ensures after.rows[i] == l.rows[i] || LinkedByPair(l, after, cs, slots, bank, i)
    {
      assert PassedRow(l, after, settled, cs, slots, bank, i);
    }
    forall o: nat, t: nat | o in Elements(order) && o in l.rows && Awaiting(l.rows[o]) && Paired(cs, slots, o, t) && t !in bank.busy && Free(l.rows, t)
      ensures t in bank.payments && LinkedTo(l.rows[o], after.rows[o], o, bank.payments[t], bank)
    {
      assert Payable(l, order, cs, slots, bank.busy, o, t);
      assert PassedRow(l, after, settled, cs, slots, bank, o);
    }
  }

  lemma HeldPairs(l: Ledger, after: Ledger, held: set<nat>, order: seq<nat>, cs: seq<Candidate>, slots: Slots, pairs: map<nat, nat>, busy: set<nat>)
    requires after.rows.Keys == l.rows.Keys && PairingOf(pairs, cs, slots)
    requires forall i :: i in l.rows ==> HeldRow(l, after, held, pairs, i)
    requires forall i :: i in order && i in pairs && i in l.rows && l.rows[i].Open() && pairs[i] !in busy && Free(l.rows, pairs[i]) ==> i in held
    ensures HoldsPairs(l, after, Elements(order), cs, slots, busy)
  {
    hide Paired;
    forall i | i in l.rows
      ensures after.rows[i] == l.rows[i] || HeldByPair(l, after, cs, slots, i)
    {
      assert HeldRow(l, after, held, pairs, i);
      if i in held { assert Gives(pairs, i, pairs[i]); }
    }
    forall o: nat, t: nat | o in Elements(order) && o in l.rows && l.rows[o].Open() && Paired(cs, slots, o, t) && t !in busy && Free(l.rows, t)
      ensures after.rows[o] == l.rows[o].(status := Processing, pendingTxn := Some(t))
    {
      assert Gives(pairs, o, t);
      assert HeldRow(l, after, held, pairs, o);
    }
  }

  /** What a pass has settled, later passes leave alone. */
  lemma LinkedStays(l: Ledger, after: Ledger, later: Ledger, among: set<nat>, cs: seq<Candidate>, slots: Slots, bank: Bank)
    requires LinksPairs(l, after, among, cs, slots, bank) && QuietRows(after, later)
    ensures PayableLinked(l, later, among, cs, slots, bank)
  {
    hide Paired;
  }

  /** The payment a held one turned into. */
  predicate HandedOver(l: Ledger, evidence: Evidence, i: nat, t: nat) {
    && i in l.rows && l.rows[i].status == Processing && l.rows[i].pendingTxn.Some?
    && i in evidence.fates && |evidence.fates[i].posted| == 1 && evidence.fates[i].posted[0].id == t
  }

  /** A row that awaits no payment is left as it is. */
  ghost predicate QuietRows(l: Ledger, after: Ledger) {
    forall i :: i in l.rows && !Awaiting(l.rows[i]) ==> i in after.rows && after.rows[i] == l.rows[i]
  }

  /** Every new use is a qualifying pair the user has not undone. */
  ghost predicate AllowedUses(l: Ledger, after: Ledger, evidence: Evidence) {
    forall i: nat, t: nat :: NewUse(l, after, i, t) ==> (i, t) !in l.rejected && evidence.Supports(i, t)
  }

  lemma AllowedMeans(l: Ledger, after: Ledger, evidence: Evidence, i: nat, t: nat)
    requires AllowedUses(l, after, evidence)
    ensures NewUse(l, after, i, t) ==> (i, t) !in l.rejected && evidence.Supports(i, t)
  {
  }

  lemma AllowedFrom(l: Ledger, after: Ledger, evidence: Evidence, cs: seq<Candidate>)
    requires UsesCandidates(l, after, cs)
    requires forall c :: c in cs ==> (c.occurrence, c.transaction) !in l.rejected
                                     && (c in evidence.debits || c in evidence.arrivals || c in evidence.pendingDebits || c in evidence.pendingArrivals)
    ensures AllowedUses(l, after, evidence)
  {
    hide NewUse;
    forall i: nat, t: nat | NewUse(l, after, i, t)
      ensures (i, t) !in l.rejected && evidence.Supports(i, t)
    {
      var c :| c in cs && c.occurrence == i && c.transaction == t;
    }
  }

  lemma QuietAcross(l: Ledger, mid: Ledger, after: Ledger)
    requires QuietRows(l, mid) && QuietRows(mid, after)
    ensures QuietRows(l, after)
  {
  }

  lemma PassIsQuiet(l: Ledger, after: Ledger, settled: set<nat>, cs: seq<Candidate>, slots: Slots, bank: Bank)
    requires forall i :: i in l.rows ==> PassedRow(l, after, settled, cs, slots, bank, i)
    ensures QuietRows(l, after)
  {
    hide Paired;
    forall i | i in l.rows && !Awaiting(l.rows[i])
      ensures i in after.rows && after.rows[i] == l.rows[i]
    {
      assert PassedRow(l, after, settled, cs, slots, bank, i);
    }
  }

  /** An occurrence still eligible after the held payments still awaits one. */
  lemma StillAwaits(l: Ledger, held: Ledger, settled: set<nat>, evidence: Evidence, today: Day, now: int, i: nat)
    requires i in l.rows && Awaiting(l.rows[i]) && i !in settled
    requires forall i :: i in l.rows ==> FatedRow(l, held, settled, evidence.fates, today, now, i)
    ensures i in held.rows && Awaiting(held.rows[i])
  {
    assert FatedRow(l, held, settled, evidence.fates, today, now, i);
  }

  lemma PaidStays(l: Ledger, after: Ledger, o: nat)
    requires QuietRows(l, after) && o in l.rows && l.rows[o].status == Paid
    ensures o in after.rows && after.rows[o] == l.rows[o]
  {
  }

  lemma NewUseSomewhere(s0: Ledger, s1: Ledger, s2: Ledger, s3: Ledger, s4: Ledger, i: nat, t: nat)
    requires s0.rows.Keys == s1.rows.Keys == s2.rows.Keys == s3.rows.Keys == s4.rows.Keys
    requires NewUse(s0, s4, i, t)
    ensures NewUse(s0, s1, i, t) || NewUse(s1, s2, i, t) || NewUse(s2, s3, i, t) || NewUse(s3, s4, i, t)
  {
  }

  /** A payment in use at the end was handed over by a hold, or taken by one of the three passes. */
  lemma UsesOfAllPasses(s0: Ledger, s1: Ledger, s2: Ledger, s3: Ledger, s4: Ledger, evidence: Evidence)
    requires Untouched(s0, s1) && Untouched(s1, s2) && Untouched(s2, s3) && Untouched(s3, s4)
    requires forall i: nat, t: nat :: NewUse(s0, s1, i, t) ==> HandedOver(s0, evidence, i, t)
    requires AllowedUses(s1, s2, evidence) && AllowedUses(s2, s3, evidence) && AllowedUses(s3, s4, evidence)
    ensures forall i: nat, t: nat :: NewUse(s0, s4, i, t) ==>
              HandedOver(s0, evidence, i, t) || ((i, t) !in s4.rejected && evidence.Supports(i, t))
  {
    hide NewUse, HandedOver, AllowedUses, IsCandidate;
    forall i: nat, t: nat | NewUse(s0, s4, i, t)
      ensures HandedOver(s0, evidence, i, t) || ((i, t) !in s4.rejected && evidence.Supports(i, t))
    {
      NewUseSomewhere(s0, s1, s2, s3, s4, i, t);
      AllowedMeans(s1, s2, evidence, i, t);
      AllowedMeans(s2, s3, evidence, i, t);
      AllowedMeans(s3, s4, evidence, i, t);
    }
  }

  lemma HeldHandsOver(l: Ledger, after: Ledger, order: seq<nat>, settled: set<nat>, evidence: Evidence, today: Day,
        now: int)
    requires forall i :: i in order ==> i in l.rows && l.rows[i].status == Processing && l.rows[i].pendingTxn.Some?
    requires forall i :: i in l.rows ==> FatedRow(l, after, settled, evidence.fates, today, now, i)
    requires forall i :: i in l.rows && i !in order ==> i in after.rows && after.rows[i] == l.rows[i]
    ensures QuietRows(l, after)
    ensures forall i: nat, t: nat :: NewUse(l, after, i, t) ==> HandedOver(l, evidence, i, t)
  {
    forall i: nat, t: nat | NewUse(l, after, i, t)
      ensures HandedOver(l, evidence, i, t)
    {
      assert FatedRow(l, after, settled, evidence.fates, today, now, i);
    }
    forall i | i in l.rows && !Awaiting(l.rows[i])
      ensures i in after.rows && after.rows[i] == l.rows[i]
    {
      assert FatedRow(l, after, settled, evidence.fates, today, now, i);
    }
  }

  lemma DistinctTogether(cs: seq<Candidate>, ds: seq<Candidate>)
    requires Distinct(cs) && Distinct(ds)
    requires forall c, d :: c in cs && d in ds ==> c.occurrence != d.occurrence
    ensures Distinct(cs + ds)
  {
  }

  predicate Suggested(cs: seq<Candidate>, i: nat) {
    exists c :: c in cs && c.occurrence == i
  }

  function Materializations(bills: seq<BillMaterialization.Bill>, today: Day, months: int, reschedule: bool): seq<Step> {
    seq(|bills|, n requires 0 <= n < |bills| => DoMaterialize(bills[n], today, months, reschedule))
  }

  class OccurrencesRepository {
    var rows: Rows
    var nextId: nat
    var rejected: set<(nat, nat)>

    ghost function State(): Ledger
      reads this
    {
      Ledger(rows, nextId, rejected)
    }

    constructor ()
      ensures State() == EMPTY
    {
      rows, nextId, rejected := map[], 0, {};
    }

    /** One INSERT ... ON CONFLICT: all of its rows, or none when a unique index refuses one. */
    method InsertOccurrences(bill: nat, cadence: Cadence, dates: seq<Day>, amount: int) returns (ok: bool)
      modifies this
      ensures ok == Statements.InsertOccurrences(old(State()), bill, cadence, dates, amount).Some?
      ensures State() == Statements.InsertOccurrences(old(State()), bill, cadence, dates, amount).GetOr(old(State()))
    {
      hide Statements.Upsert, Statements.InsertOccurrences, Unique, ScheduleKey, Repeats;
      assert Statements.InsertOccurrences(State(), bill, cadence, dates[..0], amount) == Some(State()) by {
        InsertNone(State(), bill, cadence, amount);
      }
      var before := Ledger(rows, nextId, rejected);
      var after := before;
      for n := 0 to |dates|
        invariant Statements.InsertOccurrences(before, bill, cadence, dates[..n], amount) == Some(after)
        invariant State() == before
      {
        InsertStep(before, bill, cadence, dates, amount, n);
        var next := Statements.Upsert(after, bill, ScheduleKey(cadence, dates[n]), dates[n], amount);
        if Repeats(cadence, dates[..n], dates[n]) || !Unique(next.rows) {
          InsertPrefix(before, bill, cadence, dates, amount, n + 1);
          return false;
        }
        after := next;
      }
      assert dates[..|dates|] == dates;
      rows, nextId, rejected := after.rows, after.nextId, after.rejected;
      ok := true;
    }

    method RetireFutureSchedule(bill: nat, today: Day)
      modifies this
      ensures State() == old(State()).(rows := Statements.RetireFutureSchedule(old(rows), bill, today))
    {
      rows := Statements.RetireFutureSchedule(rows, bill, today);
    }

    method AdoptRetiredScheduleDate(bill: nat, cadence: Cadence, date: Day, amount: int) returns (ok: bool)
      modifies this
      ensures ok == Statements.AdoptRetiredScheduleDate(old(rows), bill, cadence, date, amount).Some?
      ensures State() == old(State()).(rows := Statements.AdoptRetiredScheduleDate(old(rows), bill, cadence, date, amount).GetOr(old(rows)))
    {
      var adopted := Statements.AdoptRetiredScheduleDate(rows, bill, cadence, date, amount);
      ok, rows := adopted.Some?, adopted.GetOr(rows);
    }

    method ReviveCancelled(bill: nat, y: int, m: int)
      modifies this
      ensures State() == old(State()).(rows := Statements.ReviveCancelled(old(rows), bill, y, m))
    {
      rows := Statements.ReviveCancelled(rows, bill, y, m);
    }

    /** Both updates around an end date. */
    method ReconcileEndDate(bill: nat, endDate: Option<Day>, today: Day)
      modifies this
      ensures State() == old(State()).(rows := Statements.ReconcileEndDate(old(rows), bill, endDate, today))
    {
      rows := map i | i in rows :: Statements.RestoreRow(rows[i], bill, endDate, today);
      if endDate.None? { return; }
      rows := map i | i in rows :: Statements.CancelPastRow(rows[i], bill, endDate.value, today);
    }

    method CancelFuture(bill: nat)
      modifies this
      ensures State() == old(State()).(rows := Statements.CancelFuture(old(rows), bill))
    {
      rows := map i | i in rows :: Statements.CancelRow(rows[i], bill);
    }

    /** The two updates of the sweep, and how many rows they changed. */
    method SweepOverdue(today: Day) returns (count: nat)
      modifies this
      ensures State() == old(State()).(rows := Statements.SweepOverdue(old(rows), today))
      ensures count == |ChangedBySweep(old(rows), today)|
    {
      ghost var before := rows;
      var late := ChangedLate(rows, today);
      rows := map i | i in rows :: LateRow(rows[i], today);
      var early := ChangedEarly(rows, today);
      rows := map i | i in rows :: EarlyRow(rows[i], today);
      hide LateRow, EarlyRow, ChangedLate, ChangedEarly, ChangedBySweep, Statements.SweepRow;
      SweepInTwo(before, today);
      count := |late| + |early|;
    }

    /** `updateIfStatus`: the new row goes in only while the status is one of these. */
    method UpdateIfStatus(id: nat, statuses: set<Status>, r: Occurrence) returns (updated: bool)
      modifies this
      ensures updated <==> id in old(rows) && old(rows)[id].status in statuses
      ensures State() == if updated then Put(old(State()), id, r) else old(State())
    {
      updated := id in rows && rows[id].status in statuses;
      if updated { rows := rows[id := r]; }
    }

    method RejectMatch(id: nat, txn: nat)
      modifies this
      ensures State() == old(State()).(rejected := old(rejected) + {(id, txn)})
    {
      rejected := rejected + {(id, txn)};
    }

    method ClearRejection(id: nat, txn: nat)
      modifies this
      ensures State() == old(State()).(rejected := old(rejected) - {(id, txn)})
    {
      rejected := rejected - {(id, txn)};
    }

    method TryClaim(txn: nat, locked: bool, except: Option<nat>) returns (claimed: bool)
      ensures claimed == Claimed(rows, txn, locked, except)
    {
      claimed := locked && forall i :: i in rows && Some(i) != except ==> !rows[i].Uses(txn);
    }

    /** The occurrences still waiting for a payment, in any order. */
    method ListAutoConfirmationCandidates() returns (ids: seq<nat>)
      ensures NoRepeats(ids) && forall i :: i in ids <==> i in rows && Awaiting(rows[i])
    {
      ids := Listed(set i | i in rows && Awaiting(rows[i]));
      assert forall i: nat :: i in ids <==> i in Elements(ids);
    }
  }

  class Service {
    const occurrences: OccurrencesRepository

    constructor (occurrences: OccurrencesRepository)
      ensures this.occurrences == occurrences
    {
      this.occurrences := occurrences;
    }

    // ---------------------------------------------------------------- materialising

    /** The cursor up to today. */
    method CatchUpDates(bill: nat, first: Day, cadence: Cadence, today: Day) returns (dates: seq<Day>, cursor: Day)
      ensures dates == PastDates(occurrences.rows, bill, first, cadence, today)
      ensures cursor == CatchUp(first, cadence, today)
    {
      hide NextDateForCadence, Gap, KeepsPast, PastDates, CatchUp;
      var rows := occurrences.rows;
      dates, cursor := [], first;
      while Before(cursor, today)
        invariant dates + PastDates(rows, bill, cursor, cadence, today) == PastDates(rows, bill, first, cadence, today)
        invariant CatchUp(cursor, cadence, today) == CatchUp(first, cadence, today)
        decreases Gap(cursor, today)
      {
        var next := NextDateForCadence(cursor, cadence);
        GapShrinks(cursor, next, today);
        PastStep(rows, bill, cursor, cadence, today);
        if KeepsPast(rows, bill, cursor, cadence, today) {
          dates := dates + [cursor];
        }
        cursor := next;
      }
      PastStep(rows, bill, cursor, cadence, today);
    }

    /** The cursor from today to the horizon. */
    method DatesUntil(start: Day, cadence: Cadence, horizon: Day) returns (dates: seq<Day>)
      ensures dates == FutureDates(start, cadence, horizon)
    {
      hide NextDateForCadence, Gap;
      var cursor := start;
      dates := [];
      while AtMost(cursor, horizon)
        invariant dates + FutureDates(cursor, cadence, horizon) == FutureDates(start, cadence, horizon)
        decreases Gap(cursor, horizon)
      {
        dates := dates + [cursor];
        var next := NextDateForCadence(cursor, cadence);
        GapShrinks(cursor, next, horizon);
        cursor := next;
      }
    }

    method PlanDates(b: Bill, today: Day, months: int) returns (dates: seq<Day>)
      requires b.Materializes()
      ensures dates == PlannedDates(occurrences.rows, b, today, months)
    {
      hide Horizon, FirstCursor, PastDates, FutureDates, CatchUp;
      if b.Card() { return [b.destination.card.dueDate.value]; }
      var cadence := b.cadence.value;
      var past, cursor := CatchUpDates(b.id, FirstCursor(b.nextExpected.value, cadence), cadence, today);
      var future := DatesUntil(cursor, cadence, Horizon(today, months));
      dates := past + future;
    }

    method AdoptSchedule(b: Bill, dates: seq<Day>) returns (ok: bool)
      requires b.Materializes()
      modifies occurrences
      ensures ok == Statements.AdoptDates(old(occurrences.rows), b.id, b.cadence.value, dates, b.avgAmount).Some?
      ensures ok ==> occurrences.State() == old(occurrences.State()).(rows :=
                       Statements.AdoptDates(old(occurrences.rows), b.id, b.cadence.value, dates, b.avgAmount).value)
    {
      hide Statements.AdoptRetiredScheduleDate;
      ghost var before := occurrences.State();
      for n := 0 to |dates|
        invariant Statements.AdoptDates(before.rows, b.id, b.cadence.value, dates[..n], b.avgAmount) == Some(occurrences.rows)
        invariant occurrences.State() == before.(rows := occurrences.rows)
      {
        assert dates[..n + 1][..n] == dates[..n];
        ok := occurrences.AdoptRetiredScheduleDate(b.id, b.cadence.value, dates[n], b.avgAmount);
        if !ok {
          AdoptPrefix(before.rows, b.id, b.cadence.value, dates, b.avgAmount, n + 1);
          return;
        }
      }
      assert dates[..|dates|] == dates;
      ok := true;
    }

    /** Revive for a card, then insert. */
    method FillDates(b: Bill, dates: seq<Day>) returns (ok: bool)
      requires b.Materializes()
      modifies occurrences
      ensures ok == Fill(old(occurrences.State()), b, dates).Some?
      ensures ok ==> occurrences.State() == Fill(old(occurrences.State()), b, dates).value
    {
      hide Statements.ReviveCancelled, Statements.InsertOccurrences;
      if dates == [] { return true; }
      if b.Card() {
        ghost var before := occurrences.State();
        for n := 0 to |dates|
          invariant occurrences.State() == before.(rows := ReviveAll(before.rows, b.id, dates[..n]))
        {
          assert dates[..n + 1][..n] == dates[..n];
          occurrences.ReviveCancelled(b.id, dates[n].y, dates[n].m);
        }
        assert dates[..|dates|] == dates;
      }
      ok := occurrences.InsertOccurrences(b.id, b.cadence.value, dates, b.Amount());
    }

    /** One bill: on a table that keeps the invariant, no statement of it can be refused by a unique index. */
    method MaterializeBill(b: Bill, today: Day, months: int, reschedule: bool)
      requires Inv(occurrences.State())
      modifies occurrences
      ensures Inv(occurrences.State())
      ensures Some(occurrences.State()) == BillMaterialization.MaterializeBill(old(occurrences.State()), b, today, months, reschedule)
    {
      hide Inv, PlannedDates, Realigns, Fill, Statements.RetireFutureSchedule, Statements.AdoptDates;
      BillMaterializationProofs.MaterializeSafe(occurrences.State(), b, today, months, reschedule);
      if !b.Materializes() { return; }
      var dates := PlanDates(b, today, months);
      var allowed := WithinEnd(b, dates);
      var ok := true;
      if Realigns(occurrences.rows, b, today, dates, reschedule) {
        occurrences.RetireFutureSchedule(b.id, today);
        var existing := occurrences.rows;
        allowed := SafeScheduleDates(existing, b.id, b.cadence.value, today, NotPast(allowed, today));
        ok := AdoptSchedule(b, Reusable(existing, b, allowed));
      } else {
        allowed := NonCollidingScheduleDates(occurrences.rows, b.id, b.cadence.value, allowed);
      }
      ok := FillDates(b, allowed);
    }

    /** The loop over the user's bills; bills the filter leaves out are not in the list. */
    method MaterializeBills(bills: seq<Bill>, today: Day, months: int, reschedule: bool)
      requires Inv(occurrences.State())
      modifies occurrences
      ensures Inv(occurrences.State())
      ensures occurrences.State() == Run(old(occurrences.State()), Materializations(bills, today, months, reschedule))
    {
      hide Inv, BillMaterialization.MaterializeBill;
      ghost var before := occurrences.State();
      ghost var steps := Materializations(bills, today, months, reschedule);
      for n := 0 to |bills|
        invariant Inv(occurrences.State())
        invariant occurrences.State() == Run(before, steps[..n])
      {
        assert steps[..n + 1][..n] == steps[..n];
        MaterializeBill(bills[n], today, months, reschedule);
      }
      assert steps[..|bills|] == steps;
    }

    // ---------------------------------------------------------------- what the user does

    method MarkOccurrencePaid(id: nat, account: nat, amount: int, accountExists: bool,
          now: int) returns (outcome: Outcome)
      modifies occurrences
      ensures (occurrences.State(), outcome) == MarkPaid(old(occurrences.State()), id, account, amount, accountExists, now)
    {
      if id !in occurrences.rows { return NotFound; }
      var r := occurrences.rows[id];
      if r.amount < 0 || r.status !in {Upcoming, Overdue} { return Conflict; }
      if !accountExists { return Invalid; }
      var updated := occurrences.UpdateIfStatus(id, {Upcoming, Overdue},
        r.(status := Processing, paidAmount := Some(amount), paidAccount := Some(account), markedPaidAt := Some(now)));
      outcome := if updated then Done else Conflict;
    }

    method SkipOccurrence(id: nat) returns (outcome: Outcome)
      modifies occurrences
      ensures (occurrences.State(), outcome) == Skip(old(occurrences.State()), id)
    {
      if id !in occurrences.rows { return NotFound; }
      var updated := occurrences.UpdateIfStatus(id, {Upcoming, Overdue}, occurrences.rows[id].(status := Skipped));
      outcome := if updated then Done else Conflict;
    }

    /** The patch of an edit: fields left out stay. */
    method Patched(before: Occurrence, date: Edit<Day>, amount: Edit<int>,
          payment: Edit<nat>) returns (after: Occurrence)
      ensures after == Overridden(before, date, amount, payment)
    {
      after := before;
      match payment {
        case Keep =>
        case Clear => after := after.(paymentOverride := None);
        case Set(p) => after := after.(paymentOverride := Some(p));
      }
      match amount {
        case Keep =>
        case Clear => after := after.(amountOverride := None);
        case Set(a) => after := after.(amountOverride := Some(if before.amount < 0 then -a else a));
      }
      match date {
        case Keep =>
        case Clear => after := after.(dateOverride := None);
        case Set(d) => after := after.(dateOverride := Some(d));
      }
    }

    method CheckEdit(bill: nat, id: nat, date: Edit<Day>, amount: Edit<int>, payment: Edit<nat>,
                     endDate: Option<Day>, cardBill: bool, forecastTaken: bool) returns (outcome: Outcome)
      ensures outcome == OverrideGuard(occurrences.rows, bill, id, date, amount, payment, endDate, cardBill, forecastTaken)
    {
      hide Before, ActiveOn, Overridden;
      if id !in occurrences.rows || occurrences.rows[id].bill != bill { return NotFound; }
      var before := occurrences.rows[id];
      if before.status !in {Upcoming, Overdue} { return Conflict; }
      if payment != Keep && !cardBill { return Invalid; }
      var current := before.EffectiveDate();
      var due := match date case Keep => current case Clear => before.dueDate case Set(d) => d;
      EditedDate(before, date, amount, payment);
      if endDate.Some? && Before(endDate.value, due) { return Invalid; }
      if due != current {
        var taken := ActiveOn(occurrences.rows, bill, id, due);
        if taken || forecastTaken { return Conflict; }
      }
      outcome := Done;
    }

    /** The guards, then the patch; the lookups in other tables are parameters. */
    method OverrideOccurrence(bill: nat, id: nat, date: Edit<Day>, amount: Edit<int>, payment: Edit<nat>,
                              endDate: Option<Day>, cardBill: bool, forecastTaken: bool) returns (outcome: Outcome)
      modifies occurrences
      ensures (occurrences.State(), outcome)
              == Override(old(occurrences.State()), bill, id, date, amount, payment, endDate, cardBill, forecastTaken)
    {
      hide OverrideGuard, Overridden;
      outcome := CheckEdit(bill, id, date, amount, payment, endDate, cardBill, forecastTaken);
      if outcome != Done { return; }
      var after := Patched(occurrences.rows[id], date, amount, payment);
      var updated := occurrences.UpdateIfStatus(id, {Upcoming, Overdue}, after);
    }

    method UnlinkOccurrence(bill: nat, id: nat, today: Day) returns (outcome: Outcome)
      modifies occurrences
      ensures (occurrences.State(), outcome) == Unlink(old(occurrences.State()), bill, id, today)
    {
      if id !in occurrences.rows || occurrences.rows[id].bill != bill { return NotFound; }
      var r := occurrences.rows[id];
      var matched := Matched(r);
      if matched.None? { return Conflict; }
      var updated := occurrences.UpdateIfStatus(id, {Paid, Processing}, Cleared(r, UnpaidStatus(r, today)));
      if !updated { return Conflict; }
      occurrences.RejectMatch(id, matched.value);
      outcome := Done;
    }

    method LinkOccurrence(bill: nat, id: nat, p: Payment, offered: bool, locked: bool,
          now: int) returns (outcome: Outcome)
      modifies occurrences
      ensures (occurrences.State(), outcome) == Link(old(occurrences.State()), bill, id, p, offered, locked, now)
    {
      if id !in occurrences.rows || occurrences.rows[id].bill != bill { return NotFound; }
      var r := occurrences.rows[id];
      if r.amount < 0 || r.status in {Skipped, Cancelled} { return Conflict; }
      if r.linkedTxn == Some(p.id) { return Done; }
      var unused := occurrences.TryClaim(p.id, true, Some(id));
      if !offered || !unused { return Invalid; }
      var claimed := occurrences.TryClaim(p.id, locked, Some(id));
      if !claimed { return Conflict; }
      var previous := Matched(r);
      if previous.Some? { occurrences.RejectMatch(id, previous.value); }
      var updated := occurrences.UpdateIfStatus(id, {Upcoming, Overdue, Processing, Paid}, Settled(r, p, Some(p.account), now));
      occurrences.ClearRejection(id, p.id);
      outcome := Done;
    }

    // ---------------------------------------------------------------- settling from the bank

    method ConfirmPaid(id: nat, p: Payment, own: bool, payer: Option<nat>, locked: bool, now: int) returns (done: bool)
      modifies occurrences
      ensures (occurrences.State(), done) == Confirm(old(occurrences.State()), id, p, own, payer, locked, now)
    {
      var claimed := occurrences.TryClaim(p.id, locked, if own then Some(id) else None);
      if !claimed || id !in occurrences.rows { return false; }
      done := occurrences.UpdateIfStatus(id, {Upcoming, Overdue, Processing}, Settled(occurrences.rows[id], p, payer, now));
    }

    method SettleHeldPayment(o: nat, fate: Fate, busy: set<nat>, today: Day, now: int) returns (done: bool)
      modifies occurrences
      ensures (occurrences.State(), done) == SettleHeld(old(occurrences.State()), o, fate, busy, today, now)
    {
      done := false;
      if |fate.posted| == 1 {
        var p := fate.posted[0];
        done := ConfirmPaid(o, HeldAmount(fate.setup, p), true, HeldPayer(fate.setup, p), p.id !in busy, now);
      }
      if !done && |fate.posted| == 0 && !fate.stillPending && o in occurrences.rows && occurrences.rows[o].pendingTxn.Some? {
        var r := occurrences.rows[o];
        var restored := occurrences.UpdateIfStatus(o, {Processing}, r.(status := UnpaidStatus(r, today), pendingTxn := None));
      }
    }

    /** Held payments first: each posted, given up, or left as it is. */
    method SettleHeldPayments(order: seq<nat>, fates: map<nat, Fate>, busy: set<nat>, today: Day,
          now: int) returns (settled: set<nat>)
      modifies occurrences
      ensures (occurrences.State(), settled) == SettleAllHeld(old(occurrences.State()), order, fates, busy, today, now)
    {
      hide SettleHeld;
      ghost var before := occurrences.State();
      settled := {};
      for n := 0 to |order|
        invariant (occurrences.State(), settled) == SettleAllHeld(before, order[..n], fates, busy, today, now)
      {
        assert order[..n + 1][..n] == order[..n];
        var o := order[n];
        if o in fates {
          var done := SettleHeldPayment(o, fates[o], busy, today, now);
          if done { settled := settled + {o}; }
        }
      }
      assert order[..|order|] == order;
    }

    /** Confirms every occurrence the pairing gives a payment. */
    method ConfirmAll(order: seq<nat>, pairs: map<nat, nat>, bank: Bank) returns (settled: set<nat>)
      modifies occurrences
      ensures (occurrences.State(), settled) == ConfirmPairs(old(occurrences.State()), order, pairs, bank)
    {
      hide Confirm;
      ghost var before := occurrences.State();
      settled := {};
      for n := 0 to |order|
        invariant (occurrences.State(), settled) == ConfirmPairs(before, order[..n], pairs, bank)
      {
        assert order[..n + 1][..n] == order[..n];
        var o := order[n];
        if o in pairs && pairs[o] in bank.payments {
          var done := ConfirmPaid(o, bank.payments[pairs[o]], false, bank.Payer(o, pairs[o]), pairs[o] !in bank.busy, bank.now);
          if done { settled := settled + {o}; }
        }
      }
      assert order[..|order|] == order;
    }

    method HoldAll(order: seq<nat>, pairs: map<nat, nat>, busy: set<nat>) returns (held: set<nat>)
      modifies occurrences
      ensures (occurrences.State(), held) == HoldPairs(old(occurrences.State()), order, pairs, busy)
    {
      ghost var before := occurrences.State();
      held := {};
      for n := 0 to |order|
        invariant (occurrences.State(), held) == HoldPairs(before, order[..n], pairs, busy)
      {
        assert order[..n + 1][..n] == order[..n];
        var o := order[n];
        if o in pairs {
          var claimed := occurrences.TryClaim(pairs[o], pairs[o] !in busy, None);
          if claimed && o in occurrences.rows {
            var updated := occurrences.UpdateIfStatus(o, {Upcoming, Overdue},
              occurrences.rows[o].(status := Processing, pendingTxn := Some(pairs[o])));
            if updated { held := held + {o}; }
          }
        }
      }
      assert order[..|order|] == order;
    }

    /** One pass over posted payments. */
    method ConfirmClosest(order: seq<nat>, cs: seq<Candidate>, slots: Slots, bank: Bank) returns (settled: set<nat>)
      requires Inv(occurrences.State()) && NoRepeats(order) && Distinct(cs) && Covers(bank, cs)
      modifies occurrences
      ensures Inv(occurrences.State()) && Untouched(old(occurrences.State()), occurrences.State())
      ensures UsesCandidates(old(occurrences.State()), occurrences.State(), cs)
      ensures forall i :: i in settled ==> i in order
      ensures forall i :: i in old(occurrences.rows) ==>
                PassedRow(old(occurrences.State()), occurrences.State(), settled, cs, slots, bank, i)
      ensures forall o: nat, t: nat ::
                Payable(old(occurrences.State()), order, cs, slots, bank.busy, o, t) && Awaiting(old(occurrences.rows)[o]) ==>
                  o in settled && occurrences.rows[o].linkedTxn == Some(t) && occurrences.rows[o].status == Paid
    {
      hide Inv, Paired, ConfirmPairs, Distinct, IsCandidate, UsesCandidates;
      ghost var before := occurrences.State();
      var pairs := PairClosest(cs, slots);
      PairingFits(pairs, cs, slots);
      CoveredPairs(bank, cs, slots, pairs);
      settled := ConfirmAll(order, pairs, bank);
      PairsConfirmed(before, order, pairs, bank);
      ConfirmedUsesCandidates(before, occurrences.State(), settled, cs, slots, pairs, bank);
      forall i | i in before.rows
        ensures PassedRow(before, occurrences.State(), settled, cs, slots, bank, i)
      {
        assert ConfirmedRow(before, occurrences.State(), settled, pairs, bank, i);
      }
      forall o: nat, t: nat | Payable(before, order, cs, slots, bank.busy, o, t) && Awaiting(before.rows[o])
        ensures o in settled && occurrences.rows[o].linkedTxn == Some(t) && occurrences.rows[o].status == Paid
      {
        assert Gives(pairs, o, t);
        assert ConfirmedRow(before, occurrences.State(), settled, pairs, bank, o);
      }
    }

    /** One pass over payments still pending. */
    method HoldClosest(order: seq<nat>, cs: seq<Candidate>, slots: Slots, busy: set<nat>) returns (held: set<nat>)
      requires Inv(occurrences.State()) && NoRepeats(order) && Distinct(cs)
      modifies occurrences
      ensures Inv(occurrences.State()) && Untouched(old(occurrences.State()), occurrences.State())
      ensures UsesCandidates(old(occurrences.State()), occurrences.State(), cs)
      ensures forall i :: i in old(occurrences.rows) && i !in held ==> occurrences.rows[i] == old(occurrences.rows)[i]
      ensures forall i :: i in held ==> i in order && i in old(occurrences.rows) && old(occurrences.rows)[i].Open()
      ensures HoldsPairs(old(occurrences.State()), occurrences.State(), Elements(order), cs, slots, busy)
    {
      hide Inv, Paired, HoldPairs, Distinct, IsCandidate, UsesCandidates;
      ghost var before := occurrences.State();
      var pairs := PairClosest(cs, slots);
      PairingFits(pairs, cs, slots);
      held := HoldAll(order, pairs, busy);
      PairsHeld(before, order, pairs, busy);
      HeldUsesCandidates(before, occurrences.State(), held, cs, slots, pairs);
      HeldPairs(before, occurrences.State(), held, order, cs, slots, pairs, busy);
    }

    /**
     The held payments, then the three passes: the debits among everything still eligible, the card side among what
     the debits left waiting, and the pending payments among what is then still open.
     */
    method ResolveMatured(evidence: Evidence, busy: set<nat>, today: Day, now: int)
      returns (settled: set<nat>, eligible: seq<nat>, ghost afterHeld: Ledger, ghost afterDebits: Ledger, ghost afterCards: Ledger)
      requires Inv(occurrences.State()) && evidence.Valid()
      modifies occurrences
      ensures Inv(occurrences.State()) && Untouched(old(occurrences.State()), occurrences.State())
      ensures QuietRows(old(occurrences.State()), occurrences.State())
      ensures forall i: nat, t: nat :: NewUse(old(occurrences.State()), occurrences.State(), i, t) ==>
                HandedOver(old(occurrences.State()), evidence, i, t) || ((i, t) !in occurrences.rejected && evidence.Supports(i, t))
      ensures Untouched(old(occurrences.State()), afterHeld)
      ensures forall i :: i in old(occurrences.rows) ==> FatedRow(old(occurrences.State()), afterHeld, settled, evidence.fates, today, now, i)
      ensures forall i :: i in eligible <==> i in old(occurrences.rows) && Awaiting(old(occurrences.rows)[i]) && i !in settled
      ensures LinksPairs(afterHeld, afterDebits, Elements(eligible), Offered(evidence.debits, Elements(eligible), occurrences.rejected),
                    evidence.slots, Bank(evidence.payments, map[], busy, now))
      ensures var side := CardSide(afterDebits, eligible, evidence);
              LinksPairs(afterDebits, afterCards, side, Offered(evidence.arrivals, side, occurrences.rejected),
                    evidence.slots, Bank(evidence.payments, evidence.cardPayers, busy, now))
      ensures HoldsPairs(afterCards, occurrences.State(), Holdable(afterCards, eligible), PendingOffer(afterCards, eligible, evidence), evidence.slots, busy)
      ensures DebitsFirst(afterCards, occurrences.State(), evidence)
      ensures PayableLinked(afterHeld, occurrences.State(), Elements(eligible), Offered(evidence.debits, Elements(eligible), occurrences.rejected),
                            evidence.slots, Bank(evidence.payments, map[], busy, now))
      ensures var side := CardSide(afterDebits, eligible, evidence);
              PayableLinked(afterDebits, occurrences.State(), side, Offered(evidence.arrivals, side, occurrences.rejected),
                            evidence.slots, Bank(evidence.payments, evidence.cardPayers, busy, now))
    {
      hide Inv, UsesCandidates, NewUse, Distinct, PassedRow, HandedOver, QuietRows, AllowedUses, Paired, FatedRow, IsCandidate, Payable, Offered;
      hide LinksPairs, PayableLinked, HoldsPairs, DebitsFirst, CardSide, Holdable, PendingOffer, SettleAllHeld;
      ghost var s0 := occurrences.State();
      var all := occurrences.ListAutoConfirmationCandidates();
      var rows := occurrences.rows;
      var holding := set i | i in rows && rows[i].status == Processing && rows[i].pendingTxn.Some?;
      SelectKeeps(all, holding);
      settled := SettleHeldPayments(Select(all, holding), evidence.fates, busy, today, now);
      HeldSettled(s0, Select(all, holding), evidence.fates, busy, today, now);
      ghost var s1 := occurrences.State();
      HeldHandsOver(s0, s1, Select(all, holding), settled, evidence, today, now);

      eligible := Select(all, Elements(all) - settled);
      SelectKeeps(all, Elements(all) - settled);
      forall i | i in eligible
        ensures i in s1.rows && Awaiting(s1.rows[i])
      {
        StillAwaits(s0, s1, settled, evidence, today, now, i);
      }
      var confirmed := DebitPass(eligible, evidence, busy, now);
      ghost var s2 := occurrences.State();
      var arrived := CardPass(eligible, confirmed, evidence, busy, now);
      ghost var s3 := occurrences.State();
      forall i | i in confirmed + arrived
        ensures i in s3.rows && !s3.rows[i].Open()
      {
        if i in confirmed { PaidStays(s2, s3, i); }
      }
      PendingPass(eligible, confirmed + arrived, evidence, busy);
      ghost var s4 := occurrences.State();
      afterHeld, afterDebits, afterCards := s1, s2, s3;
      QuietAcross(s0, s1, s2);
      QuietAcross(s0, s2, s3);
      QuietAcross(s0, s3, s4);
      QuietAcross(s2, s3, s4);
      ghost var side := CardSide(s2, eligible, evidence);
      LinkedStays(s1, s2, s4, Elements(eligible), Offered(evidence.debits, Elements(eligible), s0.rejected), evidence.slots,
                  Bank(evidence.payments, map[], busy, now));
      LinkedStays(s2, s3, s4, side, Offered(evidence.arrivals, side, s0.rejected), evidence.slots,
                  Bank(evidence.payments, evidence.cardPayers, busy, now));
      UsesOfAllPasses(s0, s1, s2, s3, s4, evidence);
    }

    /** Posted debits first, among everything eligible. */
    method DebitPass(eligible: seq<nat>, evidence: Evidence, busy: set<nat>, now: int) returns (confirmed: set<nat>)
      requires Inv(occurrences.State()) && evidence.Valid() && NoRepeats(eligible)
      requires forall i :: i in eligible ==> i in occurrences.rows && Awaiting(occurrences.rows[i])
      modifies occurrences
      ensures Inv(occurrences.State()) && Untouched(old(occurrences.State()), occurrences.State())
      ensures QuietRows(old(occurrences.State()), occurrences.State())
      ensures AllowedUses(old(occurrences.State()), occurrences.State(), evidence)
      ensures LinksPairs(old(occurrences.State()), occurrences.State(), Elements(eligible), Offered(evidence.debits, Elements(eligible), occurrences.rejected),
                    evidence.slots, Bank(evidence.payments, map[], busy, now))
      ensures forall i :: i in confirmed ==> i in occurrences.rows && occurrences.rows[i].status == Paid
      ensures forall i :: i in eligible && i !in confirmed ==> occurrences.rows[i] == old(occurrences.rows)[i]
    {
      hide Inv, UsesCandidates, NewUse, Distinct, Paired, LinksPairs, Payable, Free;
      ghost var before := occurrences.State();
      var bank := Bank(evidence.payments, map[], busy, now);
      var debits := Offered(evidence.debits, Elements(eligible), occurrences.rejected);
      OfferedAre(evidence.debits, Elements(eligible), before.rejected);
      confirmed := ConfirmClosest(eligible, debits, evidence.slots, bank);
      PassIsQuiet(before, occurrences.State(), confirmed, debits, evidence.slots, bank);
      AllowedFrom(before, occurrences.State(), evidence, debits);
      PassLinks(before, occurrences.State(), confirmed, eligible, debits, evidence.slots, bank);
      forall i | i in eligible
        ensures i in confirmed ==> occurrences.rows[i].status == Paid
        ensures i !in confirmed ==> occurrences.rows[i] == before.rows[i]
      {
        assert PassedRow(before, occurrences.State(), confirmed, debits, evidence.slots, bank, i);
      }
    }

    /** A card or loan payment can settle from the receiving side alone, recorded with the bill's own payer. */
    method CardPass(eligible: seq<nat>, confirmed: set<nat>, evidence: Evidence, busy: set<nat>,
          now: int) returns (arrived: set<nat>)
      requires Inv(occurrences.State()) && evidence.Valid() && NoRepeats(eligible)
      requires forall i :: i in eligible ==> i in occurrences.rows && (i in confirmed <==> !Awaiting(occurrences.rows[i]))
      modifies occurrences
      ensures Inv(occurrences.State()) && Untouched(old(occurrences.State()), occurrences.State())
      ensures QuietRows(old(occurrences.State()), occurrences.State())
      ensures AllowedUses(old(occurrences.State()), occurrences.State(), evidence)
      ensures var side := CardSide(old(occurrences.State()), eligible, evidence);
              LinksPairs(old(occurrences.State()), occurrences.State(), side, Offered(evidence.arrivals, side, occurrences.rejected),
                    evidence.slots, Bank(evidence.payments, evidence.cardPayers, busy, now))
      ensures arrived !! confirmed && forall i :: i in arrived ==> i in occurrences.rows && occurrences.rows[i].status == Paid
    {
      hide Inv, UsesCandidates, NewUse, Distinct, Paired, LinksPairs, Payable, Free;
      ghost var before := occurrences.State();
      var rows := occurrences.rows;
      var card := set i | i in rows && i !in confirmed && rows[i].pendingTxn.None? && rows[i].EffectiveAmount() > 0
                          && i in evidence.cardPayers;
      SelectKeeps(eligible, card);
      var awaiting := Select(eligible, card);
      assert Elements(awaiting) == CardSide(before, eligible, evidence);
      var bank := Bank(evidence.payments, evidence.cardPayers, busy, now);
      var arrivals := Offered(evidence.arrivals, Elements(awaiting), occurrences.rejected);
      OfferedAre(evidence.arrivals, Elements(awaiting), before.rejected);
      arrived := ConfirmClosest(awaiting, arrivals, evidence.slots, bank);
      PassIsQuiet(before, occurrences.State(), arrived, arrivals, evidence.slots, bank);
      AllowedFrom(before, occurrences.State(), evidence, arrivals);
      PassLinks(before, occurrences.State(), arrived, awaiting, arrivals, evidence.slots, bank);
      forall i | i in arrived
        ensures i in occurrences.rows && occurrences.rows[i].status == Paid
      {
        assert PassedRow(before, occurrences.State(), arrived, arrivals, evidence.slots, bank, i);
      }
    }

    /** A payment still pending holds the bill; a card-side one only where no pending debit qualifies. */
    method PendingPass(eligible: seq<nat>, done: set<nat>, evidence: Evidence, busy: set<nat>)
      requires Inv(occurrences.State()) && evidence.Valid() && NoRepeats(eligible)
      requires forall i :: i in done ==> i in occurrences.rows && !occurrences.rows[i].Open()
      modifies occurrences
      ensures Inv(occurrences.State()) && Untouched(old(occurrences.State()), occurrences.State())
      ensures QuietRows(old(occurrences.State()), occurrences.State())
      ensures AllowedUses(old(occurrences.State()), occurrences.State(), evidence)
      ensures HoldsPairs(old(occurrences.State()), occurrences.State(), Holdable(old(occurrences.State()), eligible),
                    PendingOffer(old(occurrences.State()), eligible, evidence), evidence.slots, busy)
      ensures DebitsFirst(old(occurrences.State()), occurrences.State(), evidence)
    {
      hide Inv, UsesCandidates, NewUse, Distinct, Paired, HoldsPairs, DebitsFirst;
      ghost var before := occurrences.State();
      var rows := occurrences.rows;
      var open := set i | i in rows && i !in done && rows[i].Open() && rows[i].pendingTxn.None? && rows[i].EffectiveAmount() > 0;
      SelectKeeps(eligible, open);
      var unheld := Select(eligible, open);
      var onCard := set i | i in unheld && i in evidence.cardPayers && !Suggested(evidence.pendingDebits, i);
      assert Elements(unheld) == Holdable(before, eligible);
      assert onCard == OnCard(before, eligible, evidence);
      var pending := Offered(evidence.pendingDebits, Elements(unheld), occurrences.rejected);
      OfferedAre(evidence.pendingDebits, Elements(unheld), before.rejected);
      var pendingArrivals := Offered(evidence.pendingArrivals, onCard, occurrences.rejected);
      OfferedAre(evidence.pendingArrivals, onCard, before.rejected);
      assert Distinct(pending + pendingArrivals) by {
        DistinctTogether(pending, pendingArrivals);
      }
      var held := HoldClosest(unheld, pending + pendingArrivals, evidence.slots, busy);
      AllowedFrom(before, occurrences.State(), evidence, pending + pendingArrivals);
      OfferedDebitsFirst(before, occurrences.State(), eligible, evidence);
    }
  }
}
