/**
 The two programs around the queue: the repository that runs the statements, and the poller that claims a batch
 and settles every event of it (src/modules/plaid/inbound-events-poller.ts).
 */
module InboundEventsPoller {
  import opened Wrappers
  import opened InboundEvents
  import opened InboundEventsEffects
  import Proofs = InboundEventsProofs

  // ------------------------------------------------------------------ retry times

  const RETRY_BASE_MS := 30_000
  const RETRY_CAP_MS := 3_600_000

  function PowerOfTwo(n: nat): nat {
    if n == 0 then 1 else 2 * PowerOfTwo(n - 1)
  }

  /** Exponential delay, capped at one hour before the jitter. */
  function RetryBase(attempt: int): int
    requires attempt > 0
  {
    var uncapped := RETRY_BASE_MS * PowerOfTwo(attempt - 1);
    if uncapped < RETRY_CAP_MS then uncapped else RETRY_CAP_MS
  }

  function Jittered(base: int, sample: real): int {
    (base as real * (1.0 + 0.25 * sample)).Floor
  }

  function NextRetryAt(attempt: int, now: int, sample: real): int
    requires attempt > 0
  {
    now + Jittered(RetryBase(attempt), sample)
  }

  lemma Fraction(whole: real, part: real)
    requires 0.0 <= whole && 0.0 <= part <= 1.0
    ensures 0.0 <= whole * part <= whole
  {
    assert 0.0 <= whole * (1.0 - part);
  }

  lemma Jitter(whole: real, sample: real)
    requires 0.0 <= whole && 0.0 <= sample <= 1.0
    ensures whole <= whole * (1.0 + 0.25 * sample) <= 1.25 * whole
  {
    Fraction(whole, sample);
    assert whole * (1.0 + 0.25 * sample) == whole + 0.25 * (whole * sample);
  }

  lemma FloorWithin(base: int, x: real)
    requires base as real <= x <= 1.25 * (base as real)
    ensures base <= x.Floor && 4 * x.Floor <= 5 * base
  {
    assert x.Floor as real <= x < x.Floor as real + 1.0;
    assert (4 * x.Floor) as real <= (5 * base) as real;
  }

  lemma JitteredBounds(base: nat, sample: real)
    requires 0.0 <= sample <= 1.0
    ensures base <= Jittered(base, sample) && 4 * Jittered(base, sample) <= 5 * base
  {
    Jitter(base as real, sample);
    FloorWithin(base, base as real * (1.0 + 0.25 * sample));
  }

  lemma BaseBounds(attempt: int)
    requires attempt > 0
    ensures 30_000 <= RetryBase(attempt) <= 3_600_000
  {
    PowerPositive(attempt - 1);
  }

  /** The jitter adds between nothing and a quarter, so a retry comes 30 seconds to 75 minutes later. */
  lemma RetryDelay(attempt: int, now: int, sample: real)
    requires attempt > 0 && 0.0 <= sample <= 1.0
    ensures var delay := NextRetryAt(attempt, now, sample) - now;
            RetryBase(attempt) <= delay && 4 * delay <= 5 * RetryBase(attempt) && 30_000 <= delay <= 4_500_000
  {
    hide RetryBase, Jittered;
    BaseBounds(attempt);
    JitteredBounds(RetryBase(attempt), sample);
  }

  lemma PowerPositive(n: nat)
    ensures PowerOfTwo(n) >= 1
  {
  }

  /** Later attempts never wait less, for the same jitter. */
  lemma RetryBaseGrows(attempt: int)
    requires attempt > 0
    ensures RetryBase(attempt) <= RetryBase(attempt + 1)
    ensures attempt >= 8 ==> RetryBase(attempt) == RETRY_CAP_MS
  {
    PowerPositive(attempt - 1);
    if attempt >= 8 { PowerAtLeast(attempt - 1); }
  }

  lemma PowerAtLeast(n: nat)
    requires n >= 7
    ensures PowerOfTwo(n) >= 128
  {
    if n == 7 {
      assert PowerOfTwo(3) == 8;
      assert PowerOfTwo(5) == 32;
    } else {
      PowerAtLeast(n - 1);
    }
  }

  /** The delays before jitter: half a minute, doubling to an hour. */
  lemma RetryTable()
    ensures RetryBase(1) == 30_000 && RetryBase(2) == 60_000 && RetryBase(3) == 120_000 && RetryBase(4) == 240_000
    ensures RetryBase(5) == 480_000 && RetryBase(6) == 960_000 && RetryBase(7) == 1_920_000
    ensures forall attempt :: attempt >= 8 ==> RetryBase(attempt) == 3_600_000
    ensures forall attempt :: attempt > 0 ==> NextRetryAt(attempt, 0, 0.0) == RetryBase(attempt)
  {
    assert PowerOfTwo(1) == 2 && PowerOfTwo(3) == 8 && PowerOfTwo(5) == 32 && PowerOfTwo(6) == 64;
    forall attempt: int | attempt >= 8
      ensures RetryBase(attempt) == 3_600_000
    {
      RetryBaseGrows(attempt);
    }
  }

  // ------------------------------------------------------------------ what the poller writes

  /** How the handler ended; 4xx errors and broken links are terminal. */
  datatype Handled = Succeeded | Failed(code: nat, terminal: bool)

  /** A delivery already processed under the same key is not handled again. */
  predicate HasProcessedDuplicate(q: Queue, id: nat, dedupeKey: nat) {
    exists i :: i in q.events && i != id && q.events[i].dedupeKey == dedupeKey && q.events[i].status == Processed
  }

  function NextWrite(handled: Handled, attempt: int, now: int, sample: real): Write
    requires attempt > 0
  {
    match handled
    case Succeeded => MarkProcessed
    case Failed(code, terminal) =>
      if terminal || attempt >= MAX_ATTEMPTS then MarkDead(code) else ScheduleRetry(NextRetryAt(attempt, now, sample), code)
  }

  /** Runs whose retries follow the poller: never after the last attempt. */
  ghost predicate PollerRun(steps: seq<Timed>) {
    forall s :: s in steps && s.step.DoWrite? && s.step.write.ScheduleRetry? ==> s.step.ticket.attempt < MAX_ATTEMPTS
  }

  /** What the poller writes after the handler is such a step, for any outcome. */
  lemma NextWriteFollows(t: Ticket, handled: Handled, now: int, sample: real)
    requires t.attempt > 0
    ensures PollerRun([At(now, DoWrite(t, NextWrite(handled, t.attempt, now, sample)))])
    ensures !NextWrite(handled, t.attempt, now, sample).Heartbeat?
  {
  }

  /** What follows a handler: done, tried again later while attempts are left and the error may pass, or given up. */
  lemma NextWriteIs(handled: Handled, attempt: int, now: int, sample: real)
    requires attempt > 0
    ensures var w := NextWrite(handled, attempt, now, sample);
            match handled
            case Succeeded => w == MarkProcessed
            case Failed(code, terminal) =>
              && (w == MarkDead(code) <==> terminal || attempt >= 8)
              && (!terminal && attempt < 8 ==> w.ScheduleRetry? && w.retryCode == code)
              && (!terminal && attempt < 8 && 0.0 <= sample <= 1.0 ==> now + 30_000 <= w.availableAt <= now + 4_500_000)
  {
    hide NextRetryAt;
    if 0.0 <= sample <= 1.0 { RetryDelay(attempt, now, sample); }
  }

  /** Another delivery under the same key has been processed. */
  predicate SeenBefore(q: Queue, id: nat)
    requires id in q.events
  {
    exists i :: i in q.events && i != id && q.events[i].dedupeKey == q.events[id].dedupeKey && q.events[i].status == Processed
  }

  /**
   What a handler's end leaves of the queue: nothing but the event changes, and that only while the ticket holds it. It
   is processed when the handler succeeded or the delivery had been seen, dead on a terminal error or the last
   attempt, and else waits, 30 seconds to 75 minutes.
   */
  ghost predicate AfterHandler(q: Queue, after: Queue, t: Ticket, handled: Handled, now: int, sample: real)
    requires t.id in q.events
  {
    && after.events.Keys == q.events.Keys && after.claims == q.claims
    && (forall i :: i in q.events && i != t.id ==> after.events[i] == q.events[i])
    && (!Holder(q, t) ==> after.events[t.id] == q.events[t.id])
    && (Holder(q, t) ==>
          var e := after.events[t.id];
          && Unleased(e) && SameDelivery(q.events[t.id], e) && e.attempts == q.events[t.id].attempts
          && (e.status == Processed <==> handled == Succeeded || SeenBefore(q, t.id))
          && (e.status == Dead <==> !SeenBefore(q, t.id) && handled.Failed? && (handled.terminal || t.attempt >= 8))
          && (e.status == Pending <==> !SeenBefore(q, t.id) && handled.Failed? && !handled.terminal && t.attempt < 8)
          && (e.status == Pending && 0.0 <= sample <= 1.0 ==> now + 30_000 <= e.availableAt <= now + 4_500_000)
          && (e.status != Processed ==> handled.Failed? && e.lastError == Some(Reported(handled.code))))
  }

  lemma HandlerMeans(q: Queue, t: Ticket, handled: Handled, now: int, sample: real)
    requires t.attempt > 0 && t.id in q.events
    ensures var seen := if HasProcessedDuplicate(q, t.id, q.events[t.id].dedupeKey) then Succeeded else handled;
            AfterHandler(q, Perform(q, t, NextWrite(seen, t.attempt, now, sample), now).0, t, handled, now, sample)
  {
    hide NextWrite;
    assert HasProcessedDuplicate(q, t.id, q.events[t.id].dedupeKey) <==> SeenBefore(q, t.id);
    NextWriteIs(handled, t.attempt, now, sample);
    NextWriteIs(Succeeded, t.attempt, now, sample);
  }

  ghost predicate NoneStranded(q: Queue) {
    forall i :: i in q.events && q.events[i].status == Pending ==> q.events[i].attempts < MAX_ATTEMPTS
  }

  /** With the poller's rule no waiting event is out of attempts, so a claim only ever writes off expired leases. */
  lemma {:induction false} PollerStrandsNothing(steps: seq<Timed>, now: int, locked: set<nat>)
    requires PollerRun(steps)
    ensures NoneStranded(Run(EMPTY, steps))
    ensures forall i :: i in KilledBy(Run(EMPTY, steps), now, locked) ==> Run(EMPTY, steps).events[i].Expired(now)
  {
    if steps != [] {
      var front, last := steps[..|steps| - 1], steps[|steps| - 1];
      assert last in steps;
      PollerStrandsNothing(front, now, locked);
      RunKeepsInv(EMPTY, front);
      StepStrandsNothing(Run(EMPTY, front), last);
    }
    hide First, Run;
    forall i | i in KilledBy(Run(EMPTY, steps), now, locked)
      ensures Run(EMPTY, steps).events[i].Expired(now)
    {
      assert i in Exhausted(Run(EMPTY, steps).events, now, locked);
    }
  }

  lemma StepStrandsNothing(q: Queue, s: Timed)
    requires Inv(q) && NoneStranded(q)
    requires s.step.DoWrite? && s.step.write.ScheduleRetry? ==> s.step.ticket.attempt < MAX_ATTEMPTS
    ensures NoneStranded(Apply(q, s))
  {
    hide First;
    if s.step.DoWrite? && Owns(q, s.step.ticket) { assert AttemptsFit(q.events[s.step.ticket.id]); }
  }

  // ------------------------------------------------------------------ the repository

  /** The rows a claim returns: each with its new attempt and lease token. */
  function TicketsOf(q: Queue, worker: nat, taken: set<nat>): set<Ticket>
    requires taken <= q.events.Keys
  {
    set i | i in taken :: Ticket(i, worker, q.events[i].attempts + 1, Token(q.claims, i))
  }

  datatype Reply = Owned | Lost | RangeError

  class InboundEventsRepository {
    var queue: Queue

    constructor ()
      ensures queue == EMPTY
    {
      queue := EMPTY;
    }

    /** ORDER BY available_at, id LIMIT n. */
    method SelectFirst(ids: set<nat>, n: nat) returns (chosen: set<nat>)
      requires ids <= queue.events.Keys
      ensures chosen == First(queue.events, ids, n)
    {
      hide First, IsFirst;
      chosen := {};
      var rest, left := ids, n;
      while left > 0 && rest != {}
        invariant rest <= queue.events.Keys
        invariant chosen + First(queue.events, rest, left) == First(queue.events, ids, n)
        decreases left
      {
        ghost var least := FirstExists(queue.events, rest);
        FirstMeans(queue.events, rest, least);
        var i :| i in rest && forall j :: j in rest ==> Due(queue.events, i, j);
        assert IsFirst(queue.events, rest, i) by { FirstByDefinition(queue.events, rest, i); }
        FirstUnfolds(queue.events, rest, left, i);
        chosen, rest, left := chosen + {i}, rest - {i}, left - 1;
      }
      FirstOfNothing(queue.events, rest, left);
    }

    method ClaimInboundEvents(workerId: nat, limit: int, leaseMs: int, now: int, locked: set<nat>)
      returns (claimed: set<Ticket>, reply: Reply)
      modifies this
      ensures limit <= 0 || leaseMs <= 0 ==> reply == RangeError && claimed == {} && queue == old(queue)
      ensures limit > 0 && leaseMs > 0 ==>
                && reply == Owned && queue == Claim(old(queue), workerId, limit, leaseMs, now, locked)
                && claimed == TicketsOf(old(queue), workerId, TakenBy(old(queue), limit, now, locked))
    {
      if limit <= 0 || leaseMs <= 0 { return {}, RangeError; }
      var killed := SelectFirst(Exhausted(queue.events, now, locked), MAX_CLAIM_LIMIT);
      var taken := SelectFirst(Claimable(queue.events, now, locked), Min(limit, MAX_CLAIM_LIMIT));
      claimed := TicketsOf(queue, workerId, taken);
      queue := Queue(map i | i in queue.events ::
                       if i in taken then Taken(queue.events[i], workerId, Token(queue.claims, i), now + leaseMs)
                       else if i in killed then Killed(queue.events[i], now)
                       else queue.events[i],
                     queue.claims + 1);
      reply := Owned;
    }

    /** `markProcessed`, `scheduleRetry`, `markDead`, `heartbeatInboundEvent` and `releaseInboundEvent`. */
    method UpdateOwned(t: Ticket, write: Write, now: int) returns (reply: Reply)
      modifies this
      ensures t.attempt <= 0 ==> reply == RangeError && queue == old(queue)
      ensures t.attempt > 0 ==> queue == Perform(old(queue), t, write, now).0
                                && reply == if Perform(old(queue), t, write, now).1 then Owned else Lost
    {
      if t.attempt <= 0 { return RangeError; }
      if !Owns(queue, t) { return Lost; }
      queue := queue.(events := queue.events[t.id := Written(queue.events[t.id], write, now)]);
      reply := Owned;
    }

    method ReplayDead(id: nat, now: int) returns (found: bool)
      modifies this
      ensures queue == ReplayDeadEvent(old(queue), id, now)
      ensures found <==> id in old(queue).events && old(queue).events[id].status == Dead
    {
      found := id in queue.events && queue.events[id].status == Dead;
      queue := ReplayDeadEvent(queue, id, now);
    }
  }

  lemma FirstMeans(events: Events, ids: set<nat>, i: nat)
    requires ids <= events.Keys && IsFirst(events, ids, i)
    ensures i in ids && forall j :: j in ids ==> Due(events, i, j)
  {
  }

  lemma FirstByDefinition(events: Events, ids: set<nat>, i: nat)
    requires ids <= events.Keys && i in ids && forall j :: j in ids ==> Due(events, i, j)
    ensures IsFirst(events, ids, i)
  {
  }

  lemma FirstOfNothing(events: Events, ids: set<nat>, n: nat)
    requires ids <= events.Keys && (n == 0 || ids == {})
    ensures First(events, ids, n) == {}
  {
  }

  lemma FirstUnfolds(events: Events, ids: set<nat>, n: nat, i: nat)
    requires ids <= events.Keys && n > 0 && IsFirst(events, ids, i)
    ensures First(events, ids, n) == {i} + First(events, ids - {i}, n - 1)
  {
    assert forall k :: IsFirst(events, ids, k) ==> k == i;
  }

  // ------------------------------------------------------------------ the poller

  class Poller {
    const workerId: nat
    var stopping: bool

    constructor (workerId: nat)
      ensures this.workerId == workerId && !stopping
    {
      this.workerId, stopping := workerId, false;
    }

    /** One claimed event: `lostLease` is what the heartbeat found while the handler ran. */
    method RunEvent(repo: InboundEventsRepository, t: Ticket, handled: Handled, lostLease: bool, now: int, sample: real)
      requires t.attempt > 0 && t.id in repo.queue.events
      modifies repo
      ensures lostLease || stopping ==> repo.queue == old(repo.queue)
      ensures !lostLease && !stopping ==>
                var seen := if HasProcessedDuplicate(old(repo.queue), t.id, old(repo.queue).events[t.id].dedupeKey) then Succeeded else handled;
                repo.queue == Perform(old(repo.queue), t, NextWrite(seen, t.attempt, now, sample), now).0
      ensures !lostLease && !stopping ==> AfterHandler(old(repo.queue), repo.queue, t, handled, now, sample)
    {
      HandlerMeans(repo.queue, t, handled, now, sample);
      var duplicate := HasProcessedDuplicate(repo.queue, t.id, repo.queue.events[t.id].dedupeKey);
      var seen := if duplicate then Succeeded else handled;
      if lostLease || stopping { return; }
      var reply: Reply;
      match seen {
        case Succeeded =>
          reply := repo.UpdateOwned(t, MarkProcessed, now);
        case Failed(code, terminal) =>
          if terminal || t.attempt >= MAX_ATTEMPTS {
            reply := repo.UpdateOwned(t, MarkDead(code), now);
          } else {
            reply := repo.UpdateOwned(t, ScheduleRetry(NextRetryAt(t.attempt, now, sample), code), now);
          }
      }
    }

    /**
     Claims a batch and works through it. When the poller is not stopping and keeps its leases, every claimed event
     leaves the batch finished or waiting for a retry, and nothing else moves after the claim; a poller that is
     stopping hands every claim back with its attempt.
     */
    method PollBatch(repo: InboundEventsRepository, concurrency: nat, leaseMs: nat, now: int, locked: set<nat>,
                     outcomes: map<nat, Handled>, sample: real)
      returns (batch: set<nat>)
      requires concurrency > 0 && leaseMs > 0 && Inv(repo.queue)
      modifies repo
      ensures batch == TakenBy(old(repo.queue), concurrency, now, locked)
      ensures Inv(repo.queue) && repo.queue.events.Keys == old(repo.queue).events.Keys
      ensures forall i :: i in repo.queue.events && i !in batch ==>
                            repo.queue.events[i] == Claim(old(repo.queue), workerId, concurrency, leaseMs, now, locked).events[i]
      ensures forall i :: i in batch ==> repo.queue.events[i].status != Processing
      ensures !stopping ==> forall i :: i in batch ==> repo.queue.events[i].attempts == old(repo.queue).events[i].attempts + 1
                                                       && Finished(old(repo.queue).events[i], repo.queue, OutcomeOf(outcomes, i), i)
      ensures stopping ==> forall i :: i in batch ==> repo.queue.events[i].attempts == old(repo.queue).events[i].attempts
                                                      && repo.queue.events[i].status == Pending
    {
      ghost var before := repo.queue;
      var claimed, reply := repo.ClaimInboundEvents(workerId, concurrency, leaseMs, now, locked);
      ghost var mid := repo.queue;
      hide First, Claim, TakenBy, Perform, Inv, Owns, SettledRow, TicketsOf;
      ClaimKeepsInv(before, workerId, concurrency, leaseMs, now, locked);
      ClaimKeepsKeys(before, workerId, concurrency, leaseMs, now, locked);
      batch := set t | t in claimed :: t.id;
      AllTickets(before, workerId, TakenBy(before, concurrency, now, locked));
      ClaimedOwns(before, workerId, concurrency, leaseMs, now, locked);
      RunBatch(repo, before, batch, claimed, now, outcomes, sample);
      SettledRowsMean(before, repo.queue, stopping, outcomes, batch);
    }

    /** Works through the tickets of a batch. */
    method RunBatch(repo: InboundEventsRepository, ghost before: Queue, batch: set<nat>, claimed: set<Ticket>, now: int,
                    outcomes: map<nat, Handled>, sample: real)
      requires batch <= before.events.Keys && claimed == TicketsOf(before, workerId, batch)
      requires Inv(repo.queue) && forall t :: t in claimed ==> Owns(repo.queue, t) && t.attempt > 0
      modifies repo
      ensures Inv(repo.queue) && repo.queue.events.Keys == old(repo.queue).events.Keys
      ensures forall i :: i in repo.queue.events && i !in batch ==> repo.queue.events[i] == old(repo.queue).events[i]
      ensures forall i :: i in batch ==> SettledRow(before, repo.queue, stopping, OutcomeOf(outcomes, i), i)
    {
      ghost var mid := repo.queue;
      hide Perform, Inv, Owns, SettledRow;
      var rest := batch;
      while rest != {}
        invariant rest <= batch && Inv(repo.queue) && repo.queue.events.Keys == mid.events.Keys
        invariant forall i :: i in repo.queue.events && (i in rest || i !in batch) ==> repo.queue.events[i] == mid.events[i]
        invariant forall i :: i in batch && i !in rest ==> SettledRow(before, repo.queue, stopping, OutcomeOf(outcomes, i), i)
        decreases rest
      {
        var i :| i in rest;
        TicketIn(before, workerId, batch, i);
        var t :| t in claimed && t.id == i;
        OwnsRow(mid, repo.queue, t);
        ghost var prior := repo.queue;
        Settle(repo, before, t, OutcomeOf(outcomes, i), now, sample);
        rest := rest - {i};
        SettledRowsStay(before, prior, repo.queue, stopping, outcomes, batch - rest - {i}, i);
      }
    }

    /** Handing one claimed event back, or running it; the other rows stay. */
    method Settle(repo: InboundEventsRepository, ghost before: Queue, t: Ticket, handled: Handled, now: int,
          sample: real)
      requires Inv(repo.queue) && Owns(repo.queue, t) && t.attempt > 0
      requires t.id in before.events && before.events[t.id].attempts + 1 == t.attempt
      modifies repo
      ensures Inv(repo.queue) && repo.queue.events.Keys == old(repo.queue).events.Keys
      ensures forall i :: i in repo.queue.events && i != t.id ==> repo.queue.events[i] == old(repo.queue).events[i]
      ensures SettledRow(before, repo.queue, stopping, handled, t.id)
      ensures ProcessedStay(old(repo.queue), repo.queue)
    {
      ghost var prior := repo.queue;
      if stopping {
        var released := repo.UpdateOwned(t, Release, now);
        ApplyKeepsInv(prior, At(now, DoWrite(t, Release)));
      } else {
        RunEvent(repo, t, handled, false, now, sample);
        OwnsIsHolder(prior, t);
        ghost var seen := if HasProcessedDuplicate(prior, t.id, prior.events[t.id].dedupeKey) then Succeeded else handled;
        ApplyKeepsInv(prior, At(now, DoWrite(t, NextWrite(seen, t.attempt, now, sample))));
      }
    }
  }

  lemma OwnsIsHolder(q: Queue, t: Ticket)
    ensures Owns(q, t) <==> Holder(q, t)
  {
  }

  lemma AllTickets(before: Queue, worker: nat, taken: set<nat>)
    requires taken <= before.events.Keys
    ensures (set t | t in TicketsOf(before, worker, taken) :: t.id) == taken
  {
    forall i | i in taken
      ensures i in set t | t in TicketsOf(before, worker, taken) :: t.id
    {
      assert Ticket(i, worker, before.events[i].attempts + 1, Token(before.claims, i)) in TicketsOf(before, worker, taken);
    }
  }

  lemma TicketIn(before: Queue, worker: nat, taken: set<nat>, i: nat)
    requires taken <= before.events.Keys && i in taken
    ensures Ticket(i, worker, before.events[i].attempts + 1, Token(before.claims, i)) in TicketsOf(before, worker, taken)
  {
  }

  lemma OwnsRow(q: Queue, after: Queue, t: Ticket)
    requires Owns(q, t) && (t.id in q.events ==> t.id in after.events && after.events[t.id] == q.events[t.id])
    ensures Owns(after, t)
  {
  }

  lemma SettledRowsStay(before: Queue, prior: Queue, after: Queue, stopping: bool, outcomes: map<nat, Handled>, done: set<nat>, i: nat)
    requires forall k :: k in done ==> SettledRow(before, prior, stopping, OutcomeOf(outcomes, k), k)
    requires after.events.Keys == prior.events.Keys
    requires forall k :: k in after.events && k != i ==> after.events[k] == prior.events[k]
    requires i !in done && ProcessedStay(prior, after)
    ensures forall k :: k in done ==> SettledRow(before, after, stopping, OutcomeOf(outcomes, k), k)
  {
    hide OutcomeOf;
    forall k | k in done
      ensures SettledRow(before, after, stopping, OutcomeOf(outcomes, k), k)
    {
      assert SettledRow(before, prior, stopping, OutcomeOf(outcomes, k), k);
    }
  }

  lemma SettledRowsMean(before: Queue, after: Queue, stopping: bool, outcomes: map<nat, Handled>, batch: set<nat>)
    requires forall i :: i in batch ==> SettledRow(before, after, stopping, OutcomeOf(outcomes, i), i)
    ensures forall i :: i in batch ==> i in before.events && i in after.events && after.events[i].status != Processing
    ensures !stopping ==> forall i :: i in batch ==> after.events[i].attempts == before.events[i].attempts + 1
    ensures !stopping ==> forall i :: i in batch ==> Finished(before.events[i], after, OutcomeOf(outcomes, i), i)
    ensures stopping ==> forall i :: i in batch ==> after.events[i].attempts == before.events[i].attempts && after.events[i].status == Pending
  {
    hide Finished, OutcomeOf;
  }

  lemma ClaimKeepsKeys(q: Queue, worker: nat, limit: nat, leaseMs: nat, now: int, locked: set<nat>)
    ensures Claim(q, worker, limit, leaseMs, now, locked).events.Keys == q.events.Keys
  {
  }

  /** How the handler of an event ends; one that says nothing has succeeded. */
  function OutcomeOf(outcomes: map<nat, Handled>, i: nat): Handled {
    if i in outcomes then outcomes[i] else Succeeded
  }

  /**
   A handled event: processed on success; after a failure dead when the error is terminal or that was the eighth
   attempt, waiting when not, or processed if another delivery under its key has been.
   */
  predicate Finished(before: Event, after: Queue, handled: Handled, i: nat)
    requires i in after.events
  {
    && (handled == Succeeded ==> after.events[i].status == Processed)
    && (handled.Failed? && after.events[i].status != Processed ==>
          after.events[i].status == if handled.terminal || before.attempts >= 7 then Dead else Pending)
    && (handled.Failed? && after.events[i].status == Processed ==> SeenBefore(after, i))
  }

  /** How a batch leaves one of its rows. */
  ghost predicate SettledRow(before: Queue, after: Queue, stopping: bool, handled: Handled, i: nat) {
    && i in before.events && i in after.events && after.events[i].status != Processing
    && (if stopping then after.events[i].attempts == before.events[i].attempts && after.events[i].status == Pending
        else after.events[i].attempts == before.events[i].attempts + 1 && Finished(before.events[i], after, handled, i))
  }

  predicate ProcessedStay(q: Queue, after: Queue) {
    forall i :: i in q.events && q.events[i].status == Processed ==>
      i in after.events && after.events[i].status == Processed && after.events[i].dedupeKey == q.events[i].dedupeKey
  }

  /** Right after the claim, each returned ticket owns its event. */
  lemma ClaimedOwns(q: Queue, worker: nat, limit: nat, leaseMs: nat, now: int, locked: set<nat>)
    requires Inv(q)
    ensures forall t :: t in TicketsOf(q, worker, TakenBy(q, limit, now, locked)) ==>
              Owns(Claim(q, worker, limit, leaseMs, now, locked), t) && t.attempt > 0
  {
    hide First;
    forall i | i in TakenBy(q, limit, now, locked)
      ensures q.events[i].attempts >= 0
    {
      assert AttemptsFit(q.events[i]);
    }
  }
}
