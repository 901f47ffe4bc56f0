/**
 The queue of verified webhook deliveries: claims, leases and their fencing tokens
 (src/modules/plaid/inbound-events.repository.ts, database/schema/inbound-webhook-events.ts).
 Every SQL statement is one atomic step at a time `now`; workers are free to call with any stale arguments.
 */
module InboundEvents {
  import opened Wrappers

  const MAX_ATTEMPTS := 8
  const MAX_CLAIM_LIMIT := 100

  datatype Status = Pending | Processing | Processed | Dead

  /** `gen_random_uuid()`: a fresh value per claimed row, named by the claim that drew it and the row. */
  datatype Token = Token(claim: nat, id: nat)

  datatype ErrorCode = LeaseExpired | AttemptsExhausted | Reported(code: nat)

  datatype Event = Event(
    provider: nat,
    providerItem: Option<nat>,
    dedupeKey: nat,
    receivedAt: int,
    status: Status,
    attempts: int,
    availableAt: int,
    lockedBy: Option<nat>,
    leaseToken: Option<Token>,
    leaseExpiresAt: Option<int>,
    lastError: Option<ErrorCode>,
    processedAt: Option<int>)
  {
    predicate Unfinished() { status == Pending || status == Processing }

    predicate Expired(now: int) {
      status == Processing && leaseExpiresAt.Some? && leaseExpiresAt.value <= now
    }

    function Unlocked(): Event { this.(lockedBy := None, leaseToken := None, leaseExpiresAt := None) }
  }

  type Events = map<nat, Event>

  datatype Queue = Queue(events: Events, claims: nat)

  predicate SameItem(a: Event, b: Event) {
    a.provider == b.provider && a.providerItem.Some? && a.providerItem == b.providerItem
  }

  /** `(received_at, id) < (received_at, id)`. */
  predicate Earlier(events: Events, i: nat, j: nat)
    requires i in events && j in events
  {
    events[i].receivedAt < events[j].receivedAt || (events[i].receivedAt == events[j].receivedAt && i < j)
  }

  // ------------------------------------------------------------------ ORDER BY ... LIMIT

  /** `ORDER BY available_at ASC, id ASC`. */
  predicate Due(events: Events, i: nat, j: nat)
    requires i in events && j in events
  {
    events[i].availableAt < events[j].availableAt || (events[i].availableAt == events[j].availableAt && i <= j)
  }

  predicate IsFirst(events: Events, ids: set<nat>, i: nat)
    requires ids <= events.Keys
  {
    i in ids && forall j :: j in ids ==> Due(events, i, j)
  }

  lemma FirstExists(events: Events, ids: set<nat>) returns (i: nat)
    requires ids <= events.Keys && ids != {}
    ensures IsFirst(events, ids, i)
  {
    var any :| any in ids;
    i := any;
    if ids - {any} != {} {
      var k := FirstExists(events, ids - {any});
      if !Due(events, any, k) { i := k; }
    }
    assert forall j :: j in ids ==> j == any || j in ids - {any};
  }

  /** The first `n` rows of the order. */
  ghost function First(events: Events, ids: set<nat>, n: nat): (r: set<nat>)
    requires ids <= events.Keys
    ensures r <= ids
    ensures |ids| <= n ==> r == ids
    ensures n > 0 && ids != {} ==> r != {}
    decreases n
  {
    if n == 0 || ids == {} then {}
    else
      assert exists i :: IsFirst(events, ids, i) by { var i := FirstExists(events, ids); }
      var i :| IsFirst(events, ids, i);
      assert |ids - {i}| == |ids| - 1 && {i} + (ids - {i}) == ids;
      {i} + First(events, ids - {i}, n - 1)
  }

  /** A chosen row comes before every row left out, and no more than `n` are chosen. */
  lemma {:induction false} FirstComesFirst(events: Events, ids: set<nat>, n: nat)
    requires ids <= events.Keys
    ensures |First(events, ids, n)| <= n
    ensures forall i, j :: i in First(events, ids, n) && j in ids && j !in First(events, ids, n) ==> Due(events, i, j)
    decreases n
  {
    if n > 0 && ids != {} {
      assert exists i :: IsFirst(events, ids, i) by { var i := FirstExists(events, ids); }
      var i :| IsFirst(events, ids, i) && First(events, ids, n) == {i} + First(events, ids - {i}, n - 1);
      FirstComesFirst(events, ids - {i}, n - 1);
    }
  }

  // ------------------------------------------------------------------ the statements

  /** Rows out of attempts that the claim finds waiting or expired. */
  function Exhausted(events: Events, now: int, locked: set<nat>): set<nat> {
    set i | i in events && i !in locked && events[i].attempts >= MAX_ATTEMPTS
            && (events[i].status == Pending || events[i].Expired(now))
  }

  predicate Blocked(events: Events, i: nat)
    requires i in events
  {
    exists j :: j in events && SameItem(events[j], events[i]) && events[j].Unfinished() && Earlier(events, j, i)
  }

  function Claimable(events: Events, now: int, locked: set<nat>): set<nat> {
    set i | i in events && i !in locked && events[i].attempts < MAX_ATTEMPTS
            && ((events[i].status == Pending && events[i].availableAt <= now) || events[i].Expired(now))
            && !Blocked(events, i)
  }

  function Killed(e: Event, now: int): Event {
    e.Unlocked().(status := Dead, processedAt := Some(now),
                  lastError := Some(if e.status == Processing then LeaseExpired else AttemptsExhausted))
  }

  function Taken(e: Event, worker: nat, token: Token, expires: int): Event {
    e.(status := Processing, attempts := e.attempts + 1, lockedBy := Some(worker), leaseToken := Some(token),
       leaseExpiresAt := Some(expires), processedAt := None)
  }

  ghost function KilledBy(q: Queue, now: int, locked: set<nat>): set<nat> {
    First(q.events, Exhausted(q.events, now, locked), MAX_CLAIM_LIMIT)
  }

  ghost function TakenBy(q: Queue, limit: nat, now: int, locked: set<nat>): set<nat> {
    First(q.events, Claimable(q.events, now, locked), Min(limit, MAX_CLAIM_LIMIT))
  }

  /** `claimInboundEvents`; `locked` are the rows other transactions hold, which SKIP LOCKED passes over. */
  ghost function Claim(q: Queue, worker: nat, limit: nat, leaseMs: nat, now: int, locked: set<nat>): Queue {
    var killed, taken := KilledBy(q, now, locked), TakenBy(q, limit, now, locked);
    Queue(map i | i in q.events ::
            if i in taken then Taken(q.events[i], worker, Token(q.claims, i), now + leaseMs)
            else if i in killed then Killed(q.events[i], now)
            else q.events[i],
          q.claims + 1)
  }

  /** What a worker quotes in every later write. */
  datatype Ticket = Ticket(id: nat, worker: nat, attempt: int, token: Token)

  /** The WHERE clause of every write under a lease. */
  predicate Owns(q: Queue, t: Ticket) {
    && t.id in q.events
    && q.events[t.id].status == Processing && q.events[t.id].attempts == t.attempt
    && q.events[t.id].lockedBy == Some(t.worker) && q.events[t.id].leaseToken == Some(t.token)
  }

  /** The writes a lease holder makes. */
  datatype Write =
    | MarkProcessed
    | ScheduleRetry(availableAt: int, retryCode: nat)
    | MarkDead(deadCode: nat)
    | Heartbeat(leaseMs: nat)
    | Release

  function Written(e: Event, w: Write, now: int): Event {
    match w
    case MarkProcessed => e.Unlocked().(status := Processed, processedAt := Some(now), lastError := None)
    case ScheduleRetry(availableAt, code) => e.Unlocked().(status := Pending, availableAt := availableAt, lastError := Some(Reported(code)))
    case MarkDead(code) => e.Unlocked().(status := Dead, processedAt := Some(now), lastError := Some(Reported(code)))
    case Heartbeat(leaseMs) => e.(leaseExpiresAt := Some(now + leaseMs))
    case Release =>
      e.Unlocked().(status := Pending, attempts := if e.attempts > 0 then e.attempts - 1 else 0, availableAt := now,
                    lastError := None, processedAt := None)
  }

  /** A write answers whether it still owned the event. */
  function Perform(q: Queue, t: Ticket, w: Write, now: int): (Queue, bool) {
    if Owns(q, t) then (q.(events := q.events[t.id := Written(q.events[t.id], w, now)]), true) else (q, false)
  }

  function Delivered(provider: nat, providerItem: Option<nat>, dedupeKey: nat, receivedAt: int, now: int): Event {
    Event(provider, providerItem, dedupeKey, receivedAt, Pending, 0, now, None, None, None, None, None)
  }

  /** `insert`: the primary key refuses an id already there. */
  function Insert(q: Queue, id: nat, e: Event): Queue {
    if id in q.events then q else q.(events := q.events[id := e])
  }

  function ReplayDeadEvent(q: Queue, id: nat, now: int): Queue {
    if id in q.events && q.events[id].status == Dead then
      q.(events := q.events[id := q.events[id].Unlocked().(status := Pending, attempts := 0, availableAt := now, lastError := None, processedAt := None)])
    else q
  }

  datatype Step =
    | DoInsert(id: nat, provider: nat, providerItem: Option<nat>, dedupeKey: nat, receivedAt: int)
    | DoClaim(worker: nat, limit: nat, leaseMs: nat, locked: set<nat>)
    | DoWrite(ticket: Ticket, write: Write)
    | DoReplay(id: nat)

  datatype Timed = At(now: int, step: Step)

  ghost function Apply(q: Queue, s: Timed): Queue {
    match s.step
    case DoInsert(id, provider, item, dedupeKey, receivedAt) => Insert(q, id, Delivered(provider, item, dedupeKey, receivedAt, s.now))
    case DoClaim(worker, limit, leaseMs, locked) => Claim(q, worker, limit, leaseMs, s.now, locked)
    case DoWrite(t, w) => Perform(q, t, w, s.now).0
    case DoReplay(id) => ReplayDeadEvent(q, id, s.now)
  }

  ghost function Run(q: Queue, steps: seq<Timed>): Queue {
    if steps == [] then q else Apply(Run(q, steps[..|steps| - 1]), steps[|steps| - 1])
  }

  const EMPTY := Queue(map[], 0)

  // ------------------------------------------------------------------ the invariant

  /** The lease fields are set exactly while processing, with a token drawn for this row by an earlier claim. */
  predicate LeaseFits(q: Queue, i: nat, e: Event) {
    if e.status == Processing then
      && e.lockedBy.Some? && e.leaseExpiresAt.Some? && e.leaseToken.Some?
      && e.leaseToken.value.id == i && e.leaseToken.value.claim < q.claims
    else e.lockedBy == None && e.leaseExpiresAt == None && e.leaseToken == None
  }

  /** Attempts stay in 0..8, and a row that is not waiting has been claimed at least once. */
  predicate AttemptsFit(e: Event) {
    0 <= e.attempts <= MAX_ATTEMPTS && (e.status != Pending ==> e.attempts >= 1)
  }

  ghost predicate Inv(q: Queue) {
    forall i :: i in q.events ==> LeaseFits(q, i, q.events[i]) && AttemptsFit(q.events[i])
  }

  lemma ApplyKeepsInv(q: Queue, s: Timed)
    requires Inv(q)
    ensures Inv(Apply(q, s))
  {
    match s.step {
      case DoInsert(_, _, _, _, _) =>
      case DoClaim(worker, limit, leaseMs, locked) => ClaimKeepsInv(q, worker, limit, leaseMs, s.now, locked);
      case DoWrite(t, w) =>
      case DoReplay(_) =>
    }
  }

  lemma ClaimKeepsInv(q: Queue, worker: nat, limit: nat, leaseMs: nat, now: int, locked: set<nat>)
    requires Inv(q)
    ensures Inv(Claim(q, worker, limit, leaseMs, now, locked))
  {
    var after := Claim(q, worker, limit, leaseMs, now, locked);
    hide First;
    forall i | i in q.events
      ensures LeaseFits(after, i, after.events[i]) && AttemptsFit(after.events[i])
    {
      assert LeaseFits(q, i, q.events[i]) && AttemptsFit(q.events[i]);
      if i in TakenBy(q, limit, now, locked) { assert i in Claimable(q.events, now, locked); }
    }
  }

  lemma {:induction false} RunKeepsInv(q: Queue, steps: seq<Timed>)
    requires Inv(q)
    ensures Inv(Run(q, steps))
  {
    if steps != [] {
      RunKeepsInv(q, steps[..|steps| - 1]);
      ApplyKeepsInv(Run(q, steps[..|steps| - 1]), steps[|steps| - 1]);
    }
  }

  /** In every run, leases exist exactly while processing, their tokens differ, and attempts stay within 0..8. */
  lemma LeasesInEveryRun(steps: seq<Timed>, i: nat, j: nat)
    requires i in Run(EMPTY, steps).events && j in Run(EMPTY, steps).events
    ensures var e := Run(EMPTY, steps).events[i];
            && 0 <= e.attempts <= MAX_ATTEMPTS
            && (e.status == Processing <==> e.lockedBy.Some?) && (e.status == Processing <==> e.leaseToken.Some?)
            && (e.status == Processing <==> e.leaseExpiresAt.Some?)
    ensures var a, b := Run(EMPTY, steps).events[i], Run(EMPTY, steps).events[j];
            a.leaseToken.Some? && a.leaseToken == b.leaseToken ==> i == j
  {
    RunKeepsInv(EMPTY, steps);
    var q := Run(EMPTY, steps);
    assert LeaseFits(q, i, q.events[i]) && LeaseFits(q, j, q.events[j]) && AttemptsFit(q.events[i]);
  }
}
