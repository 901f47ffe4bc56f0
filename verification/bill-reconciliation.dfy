/**
 Settling occurrences from bank payments (src/modules/bills/bills.service.ts,
 resolveMaturedForecastEventsInMutation): held payments first, then the pairings.
 */
module BillReconciliation {
  import opened Wrappers
  import opened Calendar
  import opened Occurrences
  import opened BillLifecycle
  import opened BillOccurrencesRepository
  import opened MerchantMatch
  import opened MerchantMatchProofs

  /** Payments by id, the accounts recorded as payer where it is not the payment's own, and the clock. */
  datatype Bank = Bank(payments: map<nat, Payment>, payers: map<nat, Option<nat>>, busy: set<nat>, now: int)
  {
    /** `busy` are payments whose lock another session holds. */
    ghost predicate Fits(pairs: map<nat, nat>) {
      && (forall t :: t in payments ==> payments[t].id == t)
      && (forall o :: o in pairs ==> pairs[o] in payments)
    }

    function Payer(o: nat, t: nat): Option<nat>
      requires t in payments
    {
      if o in payers then payers[o] else Some(payments[t].account)
    }
  }

  ghost predicate Injective(pairs: map<nat, nat>) {
    forall o, p :: o in pairs && p in pairs && pairs[o] == pairs[p] ==> o == p
  }

  predicate Free(rows: Rows, txn: nat) {
    forall i :: i in rows ==> !rows[i].Uses(txn)
  }

  predicate Awaiting(r: Occurrence) {
    r.status in {Upcoming, Overdue, Processing}
  }

  // ------------------------------------------------------------------ confirming pairs

  /** The loop over occurrences: each paired one is confirmed with its payment, if the claim succeeds. */
  function ConfirmPairs(l: Ledger, order: seq<nat>, pairs: map<nat, nat>, bank: Bank): (Ledger, set<nat>) {
    if order == [] then (l, {})
    else
      var (before, settled), o := ConfirmPairs(l, order[..|order| - 1], pairs, bank), order[|order| - 1];
      if o !in pairs || pairs[o] !in bank.payments then (before, settled)
      else
        var (after, done) := Confirm(before, o, bank.payments[pairs[o]], false, bank.Payer(o, pairs[o]), pairs[o] !in bank.busy, bank.now);
        (after, if done then settled + {o} else settled)
  }

  /** A row settled by a payment: its amount is on record, with the payer recorded for the occurrence, else the payment's own account. */
  predicate LinkedTo(r: Occurrence, after: Occurrence, o: nat, p: Payment, bank: Bank) {
    && after.status == Paid && after.linkedTxn == Some(p.id) && after.pendingTxn == None && after.confirmedPaidAt == Some(bank.now)
    && after.paidAmount == Some(p.amount)
    && (o in bank.payers ==> after.paidAccount == bank.payers[o]) && (o !in bank.payers ==> after.paidAccount == Some(p.account))
    && after == r.(status := after.status, linkedTxn := after.linkedTxn, pendingTxn := after.pendingTxn,
                   confirmedPaidAt := after.confirmedPaidAt, paidAmount := after.paidAmount, paidAccount := after.paidAccount)
  }

  /** What the loop leaves of one row. */
  ghost predicate ConfirmedRow(l: Ledger, after: Ledger, settled: set<nat>, pairs: map<nat, nat>, bank: Bank, i: nat)
    requires bank.Fits(pairs)
  {
    && i in l.rows && i in after.rows
    && (i !in settled ==> after.rows[i] == l.rows[i])
    && (i in settled ==>
          && i in pairs && Awaiting(l.rows[i])
          && LinkedTo(l.rows[i], after.rows[i], i, bank.payments[pairs[i]], bank))
  }

  ghost predicate Untouched(l: Ledger, after: Ledger) {
    after.rows.Keys == l.rows.Keys && after.nextId == l.nextId && after.rejected == l.rejected
  }

  /**
   With an injective pairing, a row is either untouched or settled by exactly its own payment; and every awaiting
   row whose payment is free and not locked elsewhere is settled.
   */
  lemma {:induction false} PairsConfirmed(l: Ledger, order: seq<nat>, pairs: map<nat, nat>, bank: Bank)
    requires Inv(l) && NoRepeats(order) && Injective(pairs) && bank.Fits(pairs)
    ensures var (after, settled) := ConfirmPairs(l, order, pairs, bank);
            && Inv(after) && Untouched(l, after)
            && (forall i :: i in settled ==> i in order && i in l.rows)
            && (forall i :: i in l.rows ==> ConfirmedRow(l, after, settled, pairs, bank, i))
            && (forall i :: i in order && i in pairs && i in l.rows && Awaiting(l.rows[i]) && pairs[i] !in bank.busy && Free(l.rows, pairs[i]) ==>
                  i in settled)
  {
    hide Inv, Confirm;
    if order != [] {
      var front, o := order[..|order| - 1], order[|order| - 1];
      PairsConfirmed(l, front, pairs, bank);
      var (before, settled) := ConfirmPairs(l, front, pairs, bank);
      assert order == front + [o];
      if o in pairs {
        var p := bank.payments[pairs[o]];
        ConfirmKeepsInv(before, o, p, false, bank.Payer(o, p.id), p.id !in bank.busy, bank.now);
        ConfirmOne(l, before, settled, pairs, bank, o);
      }
    }
  }

  lemma ConfirmOne(l: Ledger, before: Ledger, settled: set<nat>, pairs: map<nat, nat>, bank: Bank, o: nat)
    requires Inv(before) && Injective(pairs) && bank.Fits(pairs) && Untouched(l, before)
    requires forall i :: i in l.rows ==> ConfirmedRow(l, before, settled, pairs, bank, i)
    requires o in pairs && o !in settled
    ensures var (after, done) := Confirm(before, o, bank.payments[pairs[o]], false, bank.Payer(o, pairs[o]), pairs[o] !in bank.busy, bank.now);
            var both := if done then settled + {o} else settled;
            && Untouched(l, after)
            && (done ==> o in l.rows)
            && (forall i :: i in l.rows ==> ConfirmedRow(l, after, both, pairs, bank, i))
            && (o in l.rows && Awaiting(l.rows[o]) && pairs[o] !in bank.busy && Free(l.rows, pairs[o]) ==> done)
  {
    hide Inv;
    var t := pairs[o];
    if Free(l.rows, t) {
      forall i | i in before.rows
        ensures !before.rows[i].Uses(t)
      {
        assert ConfirmedRow(l, before, settled, pairs, bank, i);
      }
    }
    if o in l.rows { assert ConfirmedRow(l, before, settled, pairs, bank, o); }
  }

  // ------------------------------------------------------------------ holding pairs

  function HoldPairs(l: Ledger, order: seq<nat>, pairs: map<nat, nat>, busy: set<nat>): (Ledger, set<nat>) {
    if order == [] then (l, {})
    else
      var (before, held), o := HoldPairs(l, order[..|order| - 1], pairs, busy), order[|order| - 1];
      if o !in pairs then (before, held)
      else
        var (after, done) := Hold(before, o, pairs[o], pairs[o] !in busy);
        (after, if done then held + {o} else held)
  }

  ghost predicate HeldRow(l: Ledger, after: Ledger, held: set<nat>, pairs: map<nat, nat>, i: nat) {
    && i in l.rows && i in after.rows
    && (i !in held ==> after.rows[i] == l.rows[i])
    && (i in held ==>
          && i in pairs && l.rows[i].Open()
          && after.rows[i] == l.rows[i].(status := Processing, pendingTxn := Some(pairs[i])))
  }

  /** The same for payments still pending: they hold the bill. */
  lemma {:induction false} PairsHeld(l: Ledger, order: seq<nat>, pairs: map<nat, nat>, busy: set<nat>)
    requires Inv(l) && NoRepeats(order) && Injective(pairs)
    ensures var (after, held) := HoldPairs(l, order, pairs, busy);
            && Inv(after) && Untouched(l, after)
            && (forall i :: i in held ==> i in order && i in l.rows)
            && (forall i :: i in l.rows ==> HeldRow(l, after, held, pairs, i))
            && (forall i :: i in order && i in pairs && i in l.rows && l.rows[i].Open() && pairs[i] !in busy && Free(l.rows, pairs[i]) ==>
                  i in held)
  {
    hide Inv, Hold;
    if order != [] {
      var front, o := order[..|order| - 1], order[|order| - 1];
      PairsHeld(l, front, pairs, busy);
      var (before, held) := HoldPairs(l, front, pairs, busy);
      assert order == front + [o];
      if o in pairs {
        HoldKeepsInv(before, o, pairs[o], pairs[o] !in busy);
        HoldOne(l, before, held, pairs, busy, o);
      }
    }
  }

  lemma HoldOne(l: Ledger, before: Ledger, held: set<nat>, pairs: map<nat, nat>, busy: set<nat>, o: nat)
    requires Inv(l) && Inv(before) && Injective(pairs) && Untouched(l, before)
    requires forall i :: i in l.rows ==> HeldRow(l, before, held, pairs, i)
    requires o in pairs && o !in held
    ensures var (after, done) := Hold(before, o, pairs[o], pairs[o] !in busy);
            var both := if done then held + {o} else held;
            && Untouched(l, after)
            && (done ==> o in l.rows)
            && (forall i :: i in l.rows ==> HeldRow(l, after, both, pairs, i))
            && (o in l.rows && l.rows[o].Open() && pairs[o] !in busy && Free(l.rows, pairs[o]) ==> done)
  {
    hide Inv;
    var t := pairs[o];
    if Free(l.rows, t) {
      forall i | i in before.rows
        ensures !before.rows[i].Uses(t)
      {
        assert HeldRow(l, before, held, pairs, i);
      }
    }
    if o in l.rows { assert HeldRow(l, before, held, pairs, o); }
  }

  // ------------------------------------------------------------------ payments that were held

  /** The bill's own accounts, for a transfer settled from the card's side. */
  datatype PayerSetup = PayerSetup(transfer: bool, toAccount: Option<nat>, account: Option<nat>, external: bool)

  /** What became of a held payment: the posted rows it turned into, and whether it is still pending. */
  datatype Fate = Fate(posted: seq<Payment>, stillPending: bool, setup: Option<PayerSetup>)

  predicate FromCard(setup: Option<PayerSetup>, p: Payment) {
    setup.Some? && setup.value.transfer && setup.value.toAccount == Some(p.account)
  }

  function HeldPayer(setup: Option<PayerSetup>, p: Payment): Option<nat> {
    if FromCard(setup, p) then (if setup.value.external then None else setup.value.account) else Some(p.account)
  }

  /** A card stores a payment received as negative; the bill paid a positive amount. */
  function HeldAmount(setup: Option<PayerSetup>, p: Payment): Payment {
    if FromCard(setup, p) && p.amount < 0 then p.(amount := -p.amount) else p
  }

  function SettleHeld(l: Ledger, o: nat, fate: Fate, busy: set<nat>, today: Day, now: int): (Ledger, bool) {
    var confirmed :=
      if |fate.posted| == 1 then
        var p := fate.posted[0];
        Confirm(l, o, HeldAmount(fate.setup, p), true, HeldPayer(fate.setup, p), p.id !in busy, now)
      else (l, false);
    if confirmed.1 then confirmed
    else if |fate.posted| > 0 || fate.stillPending then (l, false)
    else (Revert(l, o, today).0, false)
  }

  function SettleAllHeld(l: Ledger, order: seq<nat>, fates: map<nat, Fate>, busy: set<nat>, today: Day,
        now: int): (Ledger, set<nat>) {
    if order == [] then (l, {})
    else
      var (before, settled), o := SettleAllHeld(l, order[..|order| - 1], fates, busy, today, now), order[|order| - 1];
      if o !in fates then (before, settled)
      else
        var (after, done) := SettleHeld(before, o, fates[o], busy, today, now);
        (after, if done then settled + {o} else settled)
  }

  /** A hold whose payment is neither posted nor pending any more. */
  predicate GivenUp(r: Occurrence, fate: Fate) {
    r.status == Processing && r.pendingTxn.Some? && fate.posted == [] && !fate.stillPending
  }

  /** The held payment arrived on the very account the bill pays to: it was seen from the card's side. */
  predicate OnPaidAccount(fate: Fate, p: Payment) {
    fate.setup.Some? && fate.setup.value.transfer && fate.setup.value.toAccount == Some(p.account)
  }

  /** The payer on record: never the card itself, but the bill's own account, or nobody for one paid from outside. */
  predicate PaidFrom(fate: Fate, p: Payment, payer: Option<nat>) {
    && (OnPaidAccount(fate, p) && fate.setup.value.external ==> payer == None)
    && (OnPaidAccount(fate, p) && !fate.setup.value.external ==> payer == fate.setup.value.account)
    && (!OnPaidAccount(fate, p) ==> payer == Some(p.account))
  }

  /** The amount on record: what a card received counts positive. */
  predicate PaidFor(fate: Fate, p: Payment, amount: int) {
    && (OnPaidAccount(fate, p) ==> amount >= 0 && (amount == p.amount || amount == -p.amount))
    && (!OnPaidAccount(fate, p) ==> amount == p.amount)
  }

  /** A held row after its payment posted. */
  predicate SettledByPosted(r: Occurrence, after: Occurrence, fate: Fate, p: Payment, now: int) {
    && after.status == Paid && after.linkedTxn == Some(p.id) && after.pendingTxn == None && after.confirmedPaidAt == Some(now)
    && after.paidAmount.Some? && PaidFor(fate, p, after.paidAmount.value) && PaidFrom(fate, p, after.paidAccount)
    && after == r.(status := after.status, linkedTxn := after.linkedTxn, pendingTxn := after.pendingTxn,
                   confirmedPaidAt := after.confirmedPaidAt, paidAmount := after.paidAmount, paidAccount := after.paidAccount)
  }

  /** A row whose held payment went away: unpaid again, by its date. */
  predicate Reopened(r: Occurrence, after: Occurrence, today: Day) {
    && after == r.(status := after.status, pendingTxn := None)
    && after.status == if Before(r.EffectiveDate(), today) then Overdue else Upcoming
  }

  /** What became of a row that held a payment. */
  ghost predicate FatedRow(l: Ledger, after: Ledger, settled: set<nat>, fates: map<nat, Fate>, today: Day, now: int,
        i: nat) {
    && i in l.rows && i in after.rows
    && (i in settled ==>
          i in fates && |fates[i].posted| == 1 && SettledByPosted(l.rows[i], after.rows[i], fates[i], fates[i].posted[0], now))
    && (i !in settled ==>
          after.rows[i] == l.rows[i] || (i in fates && GivenUp(l.rows[i], fates[i]) && Reopened(l.rows[i], after.rows[i], today)))
  }

  /** A hold is settled by the one payment it became, given up when the payment is gone, and kept in every other case. */
  lemma {:induction false} HeldSettled(l: Ledger, order: seq<nat>, fates: map<nat, Fate>, busy: set<nat>, today: Day,
        now: int)
    requires Inv(l) && NoRepeats(order)
    ensures var (after, settled) := SettleAllHeld(l, order, fates, busy, today, now);
            && Inv(after) && Untouched(l, after)
            && (forall i :: i in settled ==> i in order)
            && (forall i :: i in l.rows ==> FatedRow(l, after, settled, fates, today, now, i))
            && (forall i :: i in l.rows && i !in order ==> after.rows[i] == l.rows[i])
            && (forall i :: i in order && i in fates && i in l.rows && GivenUp(l.rows[i], fates[i]) ==> Reopened(l.rows[i], after.rows[i], today))
  {
    hide Inv, Confirm, Revert, SettledByPosted, Reopened;
    if order != [] {
      var front, o := order[..|order| - 1], order[|order| - 1];
      HeldSettled(l, front, fates, busy, today, now);
      var (before, settled) := SettleAllHeld(l, front, fates, busy, today, now);
      assert order == front + [o];
      if o in fates {
        SettleHeldKeepsInv(before, o, fates[o], busy, today, now);
        SettleHeldRow(before, o, fates[o], busy, today, now);
      }
    }
  }

  lemma SettleHeldKeepsInv(l: Ledger, o: nat, fate: Fate, busy: set<nat>, today: Day, now: int)
    requires Inv(l)
    ensures Inv(SettleHeld(l, o, fate, busy, today, now).0)
  {
    hide Inv, Confirm, Revert;
    if |fate.posted| == 1 {
      var p := fate.posted[0];
      ConfirmKeepsInv(l, o, HeldAmount(fate.setup, p), true, HeldPayer(fate.setup, p), p.id !in busy, now);
    }
    RevertKeepsInv(l, o, today);
  }

  lemma SettleHeldRow(l: Ledger, o: nat, fate: Fate, busy: set<nat>, today: Day, now: int)
    ensures var (after, done) := SettleHeld(l, o, fate, busy, today, now);
            && Untouched(l, after)
            && (forall i :: i in l.rows && i != o ==> after.rows[i] == l.rows[i])
            && (done ==> o in l.rows && |fate.posted| == 1 && SettledByPosted(l.rows[o], after.rows[o], fate, fate.posted[0], now))
            && (!done && o in l.rows ==>
                  if GivenUp(l.rows[o], fate) then Reopened(l.rows[o], after.rows[o], today) else after.rows[o] == l.rows[o])
  {
  }

  /** A hold whose one posted payment no other row uses is settled, unless its lock is taken. */
  lemma LoneHoldIsSettled(l: Ledger, o: nat, fate: Fate, busy: set<nat>, today: Day, now: int)
    requires Inv(l) && o in l.rows && l.rows[o].status == Processing && l.rows[o].pendingTxn.Some?
    requires |fate.posted| == 1 && fate.posted[0].id !in busy
    requires forall i :: i in l.rows && i != o ==> !l.rows[i].Uses(fate.posted[0].id)
    ensures SettleHeld(l, o, fate, busy, today, now).1
    ensures l.rows[o].pendingTxn == Some(fate.posted[0].id) ==>
              SettleHeld(l, o, fate, busy, today, now).0.rows[o].linkedTxn == l.rows[o].pendingTxn
  {
  }

  // ------------------------------------------------------------------ the pairing passes

  /** The candidates a pass may use: its own occurrences', less the pairs the user has undone. */
  function Offered(cs: seq<Candidate>, among: set<nat>, rejected: set<(nat, nat)>): seq<Candidate> {
    if cs == [] then []
    else
      var before, c := Offered(cs[..|cs| - 1], among, rejected), cs[|cs| - 1];
      if c.occurrence in among && (c.occurrence, c.transaction) !in rejected then before + [c] else before
  }

  lemma {:induction false} OfferedAre(cs: seq<Candidate>, among: set<nat>, rejected: set<(nat, nat)>)
    ensures forall c :: c in Offered(cs, among, rejected) <==>
              c in cs && c.occurrence in among && (c.occurrence, c.transaction) !in rejected
    ensures Distinct(cs) ==> Distinct(Offered(cs, among, rejected))
  {
    if cs != [] {
      var front, last := cs[..|cs| - 1], cs[|cs| - 1];
      OfferedAre(front, among, rejected);
      assert cs == front + [last];
      if Distinct(cs) {
        forall c | c in front
          ensures c.occurrence != last.occurrence || c.transaction != last.transaction
        {
          var i :| 0 <= i < |front| && front[i] == c;
          assert cs[i] == c;
        }
        var before := Offered(front, among, rejected);
        assert forall i :: 0 <= i < |before| ==> before[i] in front;
      }
    }
  }

  /** `Array.filter` on ids. */
  function Select(ids: seq<nat>, keep: set<nat>): seq<nat> {
    if ids == [] then []
    else
      var before, id := Select(ids[..|ids| - 1], keep), ids[|ids| - 1];
      if id in keep then before + [id] else before
  }

  lemma {:induction false} SelectKeeps(ids: seq<nat>, keep: set<nat>)
    ensures forall i :: i in Select(ids, keep) <==> i in ids && i in keep
    ensures NoRepeats(ids) ==> NoRepeats(Select(ids, keep))
  {
    if ids != [] {
      var front := ids[..|ids| - 1];
      SelectKeeps(front, keep);
      assert ids == front + [ids[|ids| - 1]];
      var before := Select(front, keep);
      assert forall i :: 0 <= i < |before| ==> before[i] in front;
    }
  }

  ghost predicate PairingOf(pairs: map<nat, nat>, cs: seq<Candidate>, slots: Slots) {
    forall o: nat, t: nat :: Gives(pairs, o, t) <==> Paired(cs, slots, o, t)
  }

  /** What the matching hands the settlement: an injective pairing of candidates. */
  lemma PairingFits(pairs: map<nat, nat>, cs: seq<Candidate>, slots: Slots)
    requires Distinct(cs) && PairingOf(pairs, cs, slots)
    ensures Injective(pairs)
    ensures forall o :: o in pairs ==> Paired(cs, slots, o, pairs[o]) && IsCandidate(cs, o, pairs[o])
  {
    hide Paired;
    forall o | o in pairs
      ensures Paired(cs, slots, o, pairs[o]) && IsCandidate(cs, o, pairs[o])
    {
      assert Gives(pairs, o, pairs[o]);
      PairsAreCandidates(cs, slots, o, pairs[o]);
    }
    forall o, p | o in pairs && p in pairs && pairs[o] == pairs[p]
      ensures o == p
    {
      PairingIsInjective(cs, slots, o, pairs[o], p, pairs[p]);
    }
  }

  /** A payment a row uses now and did not use before. */
  predicate NewUse(l: Ledger, after: Ledger, i: nat, t: nat) {
    i in l.rows && i in after.rows && after.rows[i].Uses(t) && !l.rows[i].Uses(t)
  }

  /** Every new use of a pass is one of its candidates. */
  ghost predicate UsesCandidates(l: Ledger, after: Ledger, cs: seq<Candidate>) {
    forall i: nat, t: nat :: NewUse(l, after, i, t) ==> IsCandidate(cs, i, t)
  }

  lemma ConfirmedUsesCandidates(l: Ledger, after: Ledger, settled: set<nat>, cs: seq<Candidate>, slots: Slots,
        pairs: map<nat, nat>, bank: Bank)
    requires Distinct(cs) && PairingOf(pairs, cs, slots) && bank.Fits(pairs)
    requires forall i :: i in l.rows ==> ConfirmedRow(l, after, settled, pairs, bank, i)
    ensures UsesCandidates(l, after, cs)
  {
    hide Paired;
    PairingFits(pairs, cs, slots);
    forall i: nat, t: nat | NewUse(l, after, i, t)
      ensures IsCandidate(cs, i, t)
    {
      assert ConfirmedRow(l, after, settled, pairs, bank, i);
    }
  }

  lemma HeldUsesCandidates(l: Ledger, after: Ledger, held: set<nat>, cs: seq<Candidate>, slots: Slots,
        pairs: map<nat, nat>)
    requires Inv(l) && Distinct(cs) && PairingOf(pairs, cs, slots)
    requires forall i :: i in l.rows ==> HeldRow(l, after, held, pairs, i)
    ensures UsesCandidates(l, after, cs)
  {
    hide Paired, Inv;
    PairingFits(pairs, cs, slots);
    forall i: nat, t: nat | NewUse(l, after, i, t)
      ensures IsCandidate(cs, i, t)
    {
      assert HeldRow(l, after, held, pairs, i);
    }
  }
}
