/** What each statement on the queue does to a row, field by field, and how long a lease protects it (src/modules/plaid/inbound-events.repository.ts). */
module InboundEventsEffects {
  import opened Wrappers
  import opened InboundEvents
  import opened InboundEventsProofs

  /** What no statement ever changes. */
  predicate SameDelivery(e: Event, after: Event) {
    && after.provider == e.provider && after.providerItem == e.providerItem
    && after.dedupeKey == e.dedupeKey && after.receivedAt == e.receivedAt
  }

  predicate Unleased(e: Event) {
    e.lockedBy == None && e.leaseToken == None && e.leaseExpiresAt == None
  }

  predicate LeasedTo(e: Event, worker: nat, token: Token, expires: int) {
    e.status == Processing && e.lockedBy == Some(worker) && e.leaseToken == Some(token) && e.leaseExpiresAt == Some(expires)
  }

  /** Someone is at work on it, and has until after `now`. */
  predicate LiveLease(e: Event, now: int) {
    e.status == Processing && e.leaseExpiresAt.Some? && now < e.leaseExpiresAt.value
  }

  /** Waiting and due. */
  predicate Waits(e: Event, now: int) {
    e.status == Pending && e.availableAt <= now
  }

  /** Its worker ran out of time. */
  predicate Abandoned(e: Event, now: int) {
    e.status == Processing && e.leaseExpiresAt.Some? && e.leaseExpiresAt.value <= now
  }

  predicate OutOfAttempts(e: Event) { e.attempts >= 8 }

  /** An earlier event of its item is not finished yet. */
  predicate MustWait(events: Events, i: nat)
    requires i in events
  {
    exists j :: && j in events && events[j].provider == events[i].provider
                && events[i].providerItem.Some? && events[j].providerItem == events[i].providerItem
                && (events[j].status == Pending || events[j].status == Processing)
                && (events[j].receivedAt < events[i].receivedAt || (events[j].receivedAt == events[i].receivedAt && j < i))
  }

  /** What a claim may do to a row: lease it for the next attempt, write it off, or leave it as it is. */
  predicate ClaimedRow(e: Event, after: Event, worker: nat, token: Token, expires: int) {
    && SameDelivery(e, after) && LeasedTo(after, worker, token, expires)
    && after.attempts == e.attempts + 1 && after.availableAt == e.availableAt && after.processedAt == None && after.lastError == e.lastError
  }

  predicate WrittenOff(e: Event, after: Event, now: int) {
    && SameDelivery(e, after) && after.status == Dead && Unleased(after) && after.processedAt == Some(now)
    && after.attempts == e.attempts && after.availableAt == e.availableAt
    && after.lastError == Some(if e.status == Processing then LeaseExpired else AttemptsExhausted)
  }

  /**
   One claim, row by row. It leases rows that are due or abandoned, have attempts left, wait for no earlier event of
   their item and are in nobody's transaction; it writes off rows out of attempts; every other row stays as it is.
   */
  lemma ClaimDoes(q: Queue, worker: nat, limit: nat, leaseMs: nat, now: int, locked: set<nat>, i: nat)
    requires i in q.events
    ensures var after := Claim(q, worker, limit, leaseMs, now, locked);
            var e := q.events[i];
            && after.events.Keys == q.events.Keys && after.claims == q.claims + 1
            && (|| after.events[i] == e
                || (&& ClaimedRow(e, after.events[i], worker, Token(q.claims, i), now + leaseMs)
                    && (Waits(e, now) || Abandoned(e, now)) && !OutOfAttempts(e) && i !in locked && !MustWait(q.events, i))
                || (WrittenOff(e, after.events[i], now) && (e.status == Pending || Abandoned(e, now)) && OutOfAttempts(e) && i !in locked))
  {
    hide First;
    if i in TakenBy(q, limit, now, locked) {
      assert i in Claimable(q.events, now, locked);
      WaitsIsBlocked(q.events, i);
    } else if i in KilledBy(q, now, locked) {
      assert i in Exhausted(q.events, now, locked);
    }
  }

  lemma WaitsIsBlocked(events: Events, i: nat)
    requires i in events
    ensures MustWait(events, i) <==> Blocked(events, i)
  {
    if MustWait(events, i) {
      var j :| && j in events && events[j].provider == events[i].provider
               && events[i].providerItem.Some? && events[j].providerItem == events[i].providerItem
               && (events[j].status == Pending || events[j].status == Processing)
               && (events[j].receivedAt < events[i].receivedAt || (events[j].receivedAt == events[i].receivedAt && j < i));
      assert SameItem(events[j], events[i]) && events[j].Unfinished() && Earlier(events, j, i);
    }
  }

  predicate Leasable(q: Queue, i: nat, now: int, locked: set<nat>) {
    && i in q.events && (Waits(q.events[i], now) || Abandoned(q.events[i], now)) && !OutOfAttempts(q.events[i])
    && i !in locked && !MustWait(q.events, i)
  }

  /** The order of the queue: longer available first, then by id. */
  predicate AheadOf(q: Queue, i: nat, j: nat)
    requires i in q.events && j in q.events
  {
    q.events[i].availableAt < q.events[j].availableAt || (q.events[i].availableAt == q.events[j].availableAt && i <= j)
  }

  /** The rows a claim leased. */
  function Leased(q: Queue, after: Queue): set<nat> {
    set j | j in q.events && j in after.events && after.events[j] != q.events[j] && after.events[j].status == Processing
  }

  /** A claim takes no more rows than asked for or a hundred, and passes over a row it could lease only for rows ahead of it, up to that many. */
  lemma ClaimTakesTheFirst(q: Queue, worker: nat, limit: nat, leaseMs: nat, now: int, locked: set<nat>, i: nat)
    requires Leasable(q, i, now, locked)
    ensures var after := Claim(q, worker, limit, leaseMs, now, locked);
            var leased := Leased(q, after);
            && |leased| <= limit && |leased| <= 100
            && (i !in leased ==> (|leased| == limit || |leased| == 100) && forall j :: j in leased ==> AheadOf(q, j, i))
  {
    LeasableIsClaimable(q, i, now, locked);
    LeasedIsTaken(q, worker, limit, leaseMs, now, locked);
    hide First, Claim, Claimable, Leased, Leasable;
    FirstTakesOthers(q, Claimable(q.events, now, locked), Min(limit, MAX_CLAIM_LIMIT), i);
  }

  lemma LeasableIsClaimable(q: Queue, i: nat, now: int, locked: set<nat>)
    ensures Leasable(q, i, now, locked) ==> i in Claimable(q.events, now, locked)
    ensures Claimable(q.events, now, locked) <= q.events.Keys
  {
    if i in q.events { WaitsIsBlocked(q.events, i); }
  }

  lemma FirstTakesOthers(q: Queue, ids: set<nat>, n: nat, i: nat)
    requires ids <= q.events.Keys && i in ids
    ensures |First(q.events, ids, n)| <= n
    ensures i !in First(q.events, ids, n) ==> |First(q.events, ids, n)| == n && forall j :: j in First(q.events, ids, n) ==> AheadOf(q, j, i)
  {
    hide First;
    FirstComesFirst(q.events, ids, n);
    FirstFills(q.events, ids, n);
  }

  /** The rows a claim wrote off. */
  function GivenUpRows(q: Queue, after: Queue): set<nat> {
    set j | j in q.events && j in after.events && after.events[j] != q.events[j] && after.events[j].status == Dead
  }

  /** A row out of attempts that waits, or that its worker abandoned, is written off too, unless a hundred such rows are ahead of it. */
  lemma ClaimGivesUpTheFirst(q: Queue, worker: nat, limit: nat, leaseMs: nat, now: int, locked: set<nat>, i: nat)
    requires i in q.events && OutOfAttempts(q.events[i]) && (q.events[i].status == Pending || Abandoned(q.events[i], now)) && i !in locked
    ensures var after := Claim(q, worker, limit, leaseMs, now, locked);
            var gone := GivenUpRows(q, after);
            && |gone| <= 100 && (i !in gone ==> |gone| == 100 && forall j :: j in gone ==> AheadOf(q, j, i))
  {
    GivenUpIsKilled(q, worker, limit, leaseMs, now, locked);
    assert i in Exhausted(q.events, now, locked) && Exhausted(q.events, now, locked) <= q.events.Keys;
    hide First, Claim, Exhausted, GivenUpRows, OutOfAttempts, Abandoned;
    FirstTakesOthers(q, Exhausted(q.events, now, locked), MAX_CLAIM_LIMIT, i);
  }

  lemma GivenUpIsKilled(q: Queue, worker: nat, limit: nat, leaseMs: nat, now: int, locked: set<nat>)
    ensures GivenUpRows(q, Claim(q, worker, limit, leaseMs, now, locked)) == KilledBy(q, now, locked)
  {
    var after := Claim(q, worker, limit, leaseMs, now, locked);
    hide First;
    forall j | j in q.events
      ensures j in GivenUpRows(q, after) <==> j in KilledBy(q, now, locked)
    {
      if j in KilledBy(q, now, locked) { assert j in Exhausted(q.events, now, locked); }
      if j in TakenBy(q, limit, now, locked) { assert j in Claimable(q.events, now, locked); }
    }
  }

  lemma LeasedIsTaken(q: Queue, worker: nat, limit: nat, leaseMs: nat, now: int, locked: set<nat>)
    ensures Leased(q, Claim(q, worker, limit, leaseMs, now, locked)) == TakenBy(q, limit, now, locked)
  {
    var after := Claim(q, worker, limit, leaseMs, now, locked);
    hide First, Exhausted, Claimable;
    forall j | j in q.events
      ensures j in Leased(q, after) <==> j in TakenBy(q, limit, now, locked)
    {
    }
    assert TakenBy(q, limit, now, locked) <= q.events.Keys by { TakenAreRows(q, limit, now, locked); }
  }

  lemma TakenAreRows(q: Queue, limit: nat, now: int, locked: set<nat>)
    ensures TakenBy(q, limit, now, locked) <= q.events.Keys
  {
    hide First;
  }

  lemma {:induction false} FirstFills(events: Events, ids: set<nat>, n: nat)
    requires ids <= events.Keys
    ensures |First(events, ids, n)| == n || First(events, ids, n) == ids
    decreases n
  {
    hide First;
    if n == 0 || ids == {} {
      FirstNone(events, ids, n);
    } else {
      var i := FirstStep(events, ids, n);
      FirstFills(events, ids - {i}, n - 1);
      assert |First(events, ids, n)| == 1 + |First(events, ids - {i}, n - 1)|;
    }
  }

  lemma FirstNone(events: Events, ids: set<nat>, n: nat)
    requires ids <= events.Keys && (n == 0 || ids == {})
    ensures First(events, ids, n) == {}
  {
  }

  /** The first row, and then the first of the rest. */
  lemma FirstStep(events: Events, ids: set<nat>, n: nat) returns (i: nat)
    requires ids <= events.Keys && ids != {} && n > 0
    ensures i in ids && First(events, ids, n) == {i} + First(events, ids - {i}, n - 1)
    ensures i !in First(events, ids - {i}, n - 1)
  {
    hide IsFirst;
    assert exists k :: IsFirst(events, ids, k) by { var k := FirstExists(events, ids); }
    i :| IsFirst(events, ids, i) && First(events, ids, n) == {i} + First(events, ids - {i}, n - 1);
    FirstIsIn(events, ids, i);
  }

  lemma FirstIsIn(events: Events, ids: set<nat>, i: nat)
    requires ids <= events.Keys && IsFirst(events, ids, i)
    ensures i in ids
  {
  }

  // ------------------------------------------------------------------ leases

  /** A claim never touches a row whose lease is still running. */
  lemma LiveLeaseIsLeft(q: Queue, worker: nat, limit: nat, leaseMs: nat, now: int, locked: set<nat>, i: nat)
    requires i in q.events && LiveLease(q.events[i], now)
    ensures var after := Claim(q, worker, limit, leaseMs, now, locked);
            i in after.events && after.events[i] == q.events[i]
  {
    ClaimDoes(q, worker, limit, leaseMs, now, locked, i);
  }

  /** A step by which the holder of the lease finishes, or shortens it to end before `until`. */
  predicate LetsGo(s: Timed, t: Ticket, until: int) {
    s.step.DoWrite? && s.step.ticket == t && (!s.step.write.Heartbeat? || s.now + s.step.write.leaseMs < until)
  }

  predicate HeldUntil(q: Queue, t: Ticket, until: int) {
    && t.id in q.events && LeasedTo(q.events[t.id], t.worker, t.token, q.events[t.id].leaseExpiresAt.GetOr(until))
    && q.events[t.id].attempts == t.attempt && q.events[t.id].leaseExpiresAt.Some? && until <= q.events[t.id].leaseExpiresAt.value
  }

  lemma LeaseHoldsOnce(q: Queue, s: Timed, t: Ticket, until: int)
    requires HeldUntil(q, t, until) && s.now < until && !LetsGo(s, t, until)
    ensures HeldUntil(Apply(q, s), t, until)
  {
    match s.step {
      case DoClaim(worker, limit, leaseMs, locked) => LiveLeaseIsLeft(q, worker, limit, leaseMs, s.now, locked, t.id);
      case _ =>
    }
    hide Claim;
  }

  /**
   A lease that runs until some moment belongs to its holder until then: whatever steps anybody takes before that
   moment, other than the holder's own finishing writes, the same worker still owns the event under the same token.
   */
  lemma {:induction false} LeaseHolds(q: Queue, steps: seq<Timed>, t: Ticket, until: int)
    requires HeldUntil(q, t, until)
    requires forall k :: 0 <= k < |steps| ==> steps[k].now < until && !LetsGo(steps[k], t, until)
    ensures HeldUntil(Run(q, steps), t, until) && Owns(Run(q, steps), t)
  {
    if steps != [] {
      var front, last := steps[..|steps| - 1], steps[|steps| - 1];
      assert last == steps[|steps| - 1];
      LeaseHolds(q, front, t, until);
      hide Apply, HeldUntil;
      LeaseHoldsOnce(Run(q, front), last, t, until);
    }
    HeldOwns(Run(q, steps), t, until);
  }

  lemma HeldOwns(q: Queue, t: Ticket, until: int)
    requires HeldUntil(q, t, until)
    ensures Owns(q, t)
  {
  }

  // ------------------------------------------------------------------ the writes

  /** The same worker, attempt and token still hold the row. */
  predicate Holder(q: Queue, t: Ticket) {
    && t.id in q.events && q.events[t.id].status == Processing && q.events[t.id].attempts == t.attempt
    && q.events[t.id].lockedBy == Some(t.worker) && q.events[t.id].leaseToken == Some(t.token)
  }

  /** A write answers true exactly for the holder, changes that row alone, and leaves it as follows. */
  lemma WriteDoes(q: Queue, t: Ticket, w: Write, now: int)
    requires Inv(q)
    ensures var (after, owned) := Perform(q, t, w, now);
            && (owned <==> Holder(q, t)) && (!owned ==> after == q)
            && (owned ==>
                  && after.claims == q.claims && after.events.Keys == q.events.Keys
                  && (forall i :: i in q.events && i != t.id ==> after.events[i] == q.events[i])
                  && SameDelivery(q.events[t.id], after.events[t.id]))
    ensures Holder(q, t) ==>
              var e, r := q.events[t.id], Perform(q, t, w, now).0.events[t.id];
              match w
              case MarkProcessed => r.status == Processed && Unleased(r) && r.processedAt == Some(now) && r.lastError == None && r.attempts == e.attempts
              case ScheduleRetry(at, code) =>
                r.status == Pending && Unleased(r) && r.availableAt == at && r.lastError == Some(Reported(code)) && r.attempts == e.attempts
              case MarkDead(code) =>
                r.status == Dead && Unleased(r) && r.processedAt == Some(now) && r.lastError == Some(Reported(code)) && r.attempts == e.attempts
              case Heartbeat(leaseMs) => r == e.(leaseExpiresAt := Some(now + leaseMs))
              case Release =>
                r.status == Pending && Unleased(r) && r.availableAt == now && r.attempts == e.attempts - 1 && r.lastError == None && r.processedAt == None
  {
    if t.id in q.events { assert AttemptsFit(q.events[t.id]); }
  }

  /** A delivery comes in waiting, unleased and with no attempt behind it; an id already there is refused. */
  lemma InsertDoes(q: Queue, id: nat, provider: nat, item: Option<nat>, dedupeKey: nat, receivedAt: int, now: int)
    ensures var after := Apply(q, At(now, DoInsert(id, provider, item, dedupeKey, receivedAt)));
            && (id in q.events ==> after == q)
            && (id !in q.events ==>
                  && after.claims == q.claims && after.events.Keys == q.events.Keys + {id}
                  && (forall i :: i in q.events ==> after.events[i] == q.events[i])
                  && var e := after.events[id];
                  && e.provider == provider && e.providerItem == item && e.dedupeKey == dedupeKey && e.receivedAt == receivedAt
                  && e.status == Pending && e.attempts == 0 && e.availableAt == now && Unleased(e) && e.processedAt == None && e.lastError == None)
  {
  }

  /** A replay brings exactly a dead event back, with all of its attempts. */
  lemma ReplayDoes(q: Queue, id: nat, now: int)
    ensures var after := ReplayDeadEvent(q, id, now);
            && (id in q.events && q.events[id].status == Dead ==>
                  && after.claims == q.claims && after.events.Keys == q.events.Keys
                  && (forall i :: i in q.events && i != id ==> after.events[i] == q.events[i])
                  && var e := after.events[id];
                  && SameDelivery(q.events[id], e) && e.status == Pending && e.attempts == 0 && e.availableAt == now
                  && Unleased(e) && e.processedAt == None && e.lastError == None)
            && (!(id in q.events && q.events[id].status == Dead) ==> after == q)
  {
  }
}
