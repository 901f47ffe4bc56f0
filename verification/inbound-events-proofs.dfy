/** Fencing, per-item order, attempt accounting and progress of the delivery queue, over every run of competing workers. */
module InboundEventsProofs {
  import opened Wrappers
  import opened InboundEvents

  // ------------------------------------------------------------------ fencing

  /** A token drawn in the past that no row carries any more. */
  ghost predicate Stale(q: Queue, token: Token) {
    token.claim < q.claims && forall i :: i in q.events ==> q.events[i].leaseToken != Some(token)
  }

  lemma StaleStays(q: Queue, s: Timed, token: Token)
    requires Stale(q, token)
    ensures Stale(Apply(q, s), token)
  {
    hide First;
  }

  lemma {:induction false} StaleForever(q: Queue, steps: seq<Timed>, token: Token)
    requires Stale(q, token)
    ensures Stale(Run(q, steps), token)
  {
    if steps != [] {
      StaleForever(q, steps[..|steps| - 1], token);
      StaleStays(Run(q, steps[..|steps| - 1]), steps[|steps| - 1], token);
    }
  }

  /** Steps that end a lease: a write other than a heartbeat, a later claim of the row, or the claim that kills it. */
  ghost predicate EndsLease(q: Queue, s: Timed, id: nat) {
    match s.step
    case DoWrite(t, w) => t.id == id && Owns(q, t) && !w.Heartbeat?
    case DoClaim(worker, limit, leaseMs, locked) => id in TakenBy(q, limit, s.now, locked) || id in KilledBy(q, s.now, locked)
    case _ => false
  }

  lemma EndedIsStale(q: Queue, s: Timed, id: nat, token: Token)
    requires Inv(q) && id in q.events && q.events[id].leaseToken == Some(token) && EndsLease(q, s, id)
    ensures Stale(Apply(q, s), token)
  {
    hide First;
    assert LeaseFits(q, id, q.events[id]);
    forall i | i in q.events && i != id
      ensures q.events[i].leaseToken != Some(token)
    {
      assert LeaseFits(q, i, q.events[i]);
    }
  }

  /** A lease no step ends goes on: the same worker, attempt and token still own the event. */
  lemma LeaseGoesOn(q: Queue, s: Timed, t: Ticket)
    requires Inv(q) && Owns(q, t) && !EndsLease(q, s, t.id)
    ensures Owns(Apply(q, s), t)
  {
    hide First;
  }

  /**
   Fencing. Once the lease a ticket stands for has ended, by whoever's step, then after any further steps every
   write with that ticket's token answers false and changes nothing, whatever id, worker and attempt it quotes.
   */
  lemma Fencing(q: Queue, s: Timed, id: nat, token: Token, steps: seq<Timed>, t: Ticket, w: Write, now: int)
    requires Inv(q) && id in q.events && q.events[id].leaseToken == Some(token) && EndsLease(q, s, id)
    requires t.token == token
    ensures Perform(Run(Apply(q, s), steps), t, w, now) == (Run(Apply(q, s), steps), false)
  {
    hide Apply;
    EndedIsStale(q, s, id, token);
    StaleForever(Apply(q, s), steps, token);
  }

  // ------------------------------------------------------------------ one item at a time

  /** One claim never takes two events of the same item. */
  lemma ClaimTakesOnePerItem(q: Queue, limit: nat, now: int, locked: set<nat>, i: nat, j: nat)
    requires i in TakenBy(q, limit, now, locked) && j in TakenBy(q, limit, now, locked)
    requires SameItem(q.events[i], q.events[j])
    ensures i == j
  {
    hide First;
    assert i in Claimable(q.events, now, locked) && j in Claimable(q.events, now, locked);
    assert Earlier(q.events, i, j) ==> Blocked(q.events, j);
    assert Earlier(q.events, j, i) ==> Blocked(q.events, i);
  }

  predicate Precedes(q: Queue, i: nat, j: nat) {
    i in q.events && j in q.events && SameItem(q.events[i], q.events[j]) && Earlier(q.events, i, j)
  }

  /** Work on an event starts only once every earlier event of its item is finished. */
  ghost predicate InOrder(q: Queue) {
    forall i, j :: Precedes(q, i, j) && q.events[j].attempts > 0 ==> !q.events[i].Unfinished()
  }

  lemma ClaimKeepsOrder(q: Queue, worker: nat, limit: nat, leaseMs: nat, now: int, locked: set<nat>)
    requires Inv(q) && InOrder(q)
    ensures InOrder(Claim(q, worker, limit, leaseMs, now, locked))
  {
    var after := Claim(q, worker, limit, leaseMs, now, locked);
    hide First;
    forall i, j | Precedes(after, i, j) && after.events[j].attempts > 0
      ensures !after.events[i].Unfinished()
    {
      assert Precedes(q, i, j);
      if j in TakenBy(q, limit, now, locked) {
        assert j in Claimable(q.events, now, locked);
        assert !q.events[i].Unfinished();
      }
      assert i in TakenBy(q, limit, now, locked) ==> i in Claimable(q.events, now, locked);
    }
  }

  lemma WriteKeepsOrder(q: Queue, t: Ticket, w: Write, now: int)
    requires Inv(q) && InOrder(q)
    ensures InOrder(Perform(q, t, w, now).0)
  {
    var after := Perform(q, t, w, now).0;
    forall i, j | Precedes(after, i, j) && after.events[j].attempts > 0
      ensures !after.events[i].Unfinished()
    {
      assert Precedes(q, i, j);
    }
  }

  /** A delivery that arrives after a later one of its item was started. */
  ghost predicate ArrivesLate(q: Queue, id: nat, provider: nat, item: Option<nat>, receivedAt: int) {
    id !in q.events && exists j :: j in q.events && q.events[j].provider == provider && item.Some? && q.events[j].providerItem == item
                         && q.events[j].attempts > 0 && (receivedAt < q.events[j].receivedAt || (receivedAt == q.events[j].receivedAt && id < j))
  }

  /** An insert keeps the order exactly when it does not arrive late. */
  lemma InsertKeepsOrder(q: Queue, id: nat, provider: nat, item: Option<nat>, dedupeKey: nat, receivedAt: int, now: int)
    requires Inv(q) && InOrder(q)
    ensures InOrder(Insert(q, id, Delivered(provider, item, dedupeKey, receivedAt, now))) <==> !ArrivesLate(q, id, provider, item, receivedAt)
  {
    var after := Insert(q, id, Delivered(provider, item, dedupeKey, receivedAt, now));
    if ArrivesLate(q, id, provider, item, receivedAt) {
      var j :| j in q.events && q.events[j].provider == provider && item.Some? && q.events[j].providerItem == item
               && q.events[j].attempts > 0 && (receivedAt < q.events[j].receivedAt || (receivedAt == q.events[j].receivedAt && id < j));
      assert Precedes(after, id, j);
    } else {
      forall i, j | Precedes(after, i, j) && after.events[j].attempts > 0
        ensures !after.events[i].Unfinished()
      {
        if i in q.events && j in q.events { assert Precedes(q, i, j); }
      }
    }
  }

  /** A replay overtaken by a later event of the item that was started meanwhile. */
  ghost predicate ReplaysBehind(q: Queue, id: nat) {
    id in q.events && q.events[id].status == Dead && exists j :: Precedes(q, id, j) && q.events[j].attempts > 0
  }

  /** A replay keeps the order exactly when no later event of the item has been started. */
  lemma ReplayKeepsOrder(q: Queue, id: nat, now: int)
    requires Inv(q) && InOrder(q)
    ensures InOrder(ReplayDeadEvent(q, id, now)) <==> !ReplaysBehind(q, id)
  {
    var after := ReplayDeadEvent(q, id, now);
    if ReplaysBehind(q, id) {
      var j :| Precedes(q, id, j) && q.events[j].attempts > 0;
      assert Precedes(after, id, j);
    } else {
      forall i, j | Precedes(after, i, j) && after.events[j].attempts > 0
        ensures !after.events[i].Unfinished()
      {
        assert Precedes(q, i, j);
      }
    }
  }

  const ITEM: Option<nat> := Some(7)

  /** The delivery received second is claimed before the one received first comes in. */
  function ClaimedEarly(): seq<Timed> {
    [At(10, DoInsert(1, 0, ITEM, 0, 10)), At(11, DoClaim(0, 1, 60, {}))]
  }

  lemma LateArrivalBreaksOrder()
    ensures var q := Run(EMPTY, ClaimedEarly());
            Inv(q) && InOrder(q) && !InOrder(Apply(q, At(12, DoInsert(0, 0, ITEM, 1, 5))))
  {
    hide First;
    var q := Run(EMPTY, ClaimedEarly());
    assert ClaimedEarly()[..1] == [At(10, DoInsert(1, 0, ITEM, 0, 10))] && ClaimedEarly()[..1][..0] == [];
    var inserted := Run(EMPTY, ClaimedEarly()[..1]);
    assert inserted == Queue(map[1 := Delivered(0, ITEM, 0, 10, 10)], 0);
    TakesTheOnly(inserted, 1, 11);
    assert q == Claim(inserted, 0, 1, 60, 11, {});
    RunKeepsInv(EMPTY, ClaimedEarly());
    ClaimKeepsOrder(inserted, 0, 1, 60, 11, {});
    assert q.events[1].attempts > 0;
    InsertKeepsOrder(q, 0, 0, ITEM, 1, 5, 12);
  }

  lemma TakesTheOnly(q: Queue, id: nat, now: int)
    requires id in q.events && Claimable(q.events, now, {}) == {id}
    ensures TakenBy(q, 1, now, {}) == {id}
  {
  }

  /** The first delivery is claimed and given up. */
  function GivenUp(): seq<Timed> {
    [At(5, DoInsert(0, 0, ITEM, 0, 5)), At(6, DoClaim(0, 1, 60, {})), At(8, DoWrite(Ticket(0, 0, 1, Token(0, 0)), MarkDead(1)))]
  }

  /** Then the second is claimed. */
  function ClaimedAfterDead(): seq<Timed> {
    GivenUp() + [At(10, DoInsert(1, 0, ITEM, 1, 10)), At(11, DoClaim(0, 1, 60, {}))]
  }

  lemma GivenUpIsDead()
    ensures var q := Run(EMPTY, GivenUp()); q.events.Keys == {0} && q.claims == 1
    ensures var e := Run(EMPTY, GivenUp()).events[0];
            e.status == Dead && e.receivedAt == 5 && e.provider == 0 && e.providerItem == ITEM
  {
    hide First;
    var all, first := GivenUp(), Insert(EMPTY, 0, Delivered(0, ITEM, 0, 5, 5));
    TakesTheOnly(first, 0, 6);
    assert all[..2][..1] == all[..1] && all[..1][..0] == [];
    assert Run(EMPTY, all[..1]) == first;
    assert Run(EMPTY, all[..2]) == Claim(first, 0, 1, 60, 6, {});
  }

  lemma ReplayBreaksOrder()
    ensures var q := Run(EMPTY, ClaimedAfterDead());
            Inv(q) && InOrder(q) && !InOrder(Apply(q, At(20, DoReplay(0))))
  {
    hide First, GivenUp, Inv;
    var all := ClaimedAfterDead();
    var q := Run(EMPTY, all);
    GivenUpIsDead();
    var second := Insert(Run(EMPTY, GivenUp()), 1, Delivered(0, ITEM, 1, 10, 10));
    TakesTheOnly(second, 1, 11);
    assert |GivenUp()| == 3 by { ThreeSteps(); }
    assert all[..4][..3] == GivenUp() && all[..4][3] == At(10, DoInsert(1, 0, ITEM, 1, 10));
    assert Run(EMPTY, all[..4]) == second;
    assert q == Claim(second, 0, 1, 60, 11, {});
    RunKeepsInv(EMPTY, all);
    DeadThenClaimed(q);
    ReplayKeepsOrder(q, 0, 20);
  }

  lemma ThreeSteps()
    ensures |GivenUp()| == 3
  {
  }

  lemma DeadThenClaimed(q: Queue)
    requires Inv(q) && q.events.Keys == {0, 1} && q.events[0].status == Dead && q.events[1].attempts == 1 && Precedes(q, 0, 1)
    ensures InOrder(q) && ReplaysBehind(q, 0)
  {
  }

  ghost predicate StepInOrder(q: Queue, s: Timed) {
    match s.step
    case DoInsert(id, provider, item, _, receivedAt) => !ArrivesLate(q, id, provider, item, receivedAt)
    case DoReplay(id) => !ReplaysBehind(q, id)
    case _ => true
  }

  lemma ApplyOrder(q: Queue, s: Timed)
    requires Inv(q) && InOrder(q)
    ensures InOrder(Apply(q, s)) <==> StepInOrder(q, s)
  {
    match s.step {
      case DoInsert(id, provider, item, dedupeKey, receivedAt) => InsertKeepsOrder(q, id, provider, item, dedupeKey, receivedAt, s.now);
      case DoClaim(worker, limit, leaseMs, locked) => ClaimKeepsOrder(q, worker, limit, leaseMs, s.now, locked);
      case DoWrite(t, w) => WriteKeepsOrder(q, t, w, s.now);
      case DoReplay(id) => ReplayKeepsOrder(q, id, s.now);
    }
  }

  /** Every delivery and replay of the run comes in time. */
  ghost predicate RunInOrder(q: Queue, steps: seq<Timed>) {
    steps != [] ==> RunInOrder(q, steps[..|steps| - 1]) && StepInOrder(Run(q, steps[..|steps| - 1]), steps[|steps| - 1])
  }

  lemma {:induction false} RunKeepsOrder(q: Queue, steps: seq<Timed>)
    requires Inv(q) && InOrder(q) && RunInOrder(q, steps)
    ensures InOrder(Run(q, steps))
  {
    if steps != [] {
      var front := steps[..|steps| - 1];
      RunKeepsOrder(q, front);
      RunKeepsInv(q, front);
      ApplyOrder(Run(q, front), steps[|steps| - 1]);
    }
  }

  /**
   In such runs at most one event of an item is being processed, and an event is processed (or given up on) only
   after all earlier events of its item are processed or dead.
   */
  lemma OneAtATime(steps: seq<Timed>, i: nat, j: nat)
    requires RunInOrder(EMPTY, steps)
    requires var q := Run(EMPTY, steps);
             i in q.events && j in q.events && SameItem(q.events[i], q.events[j])
    ensures var q := Run(EMPTY, steps);
            q.events[i].status == Processing && q.events[j].status == Processing ==> i == j
    ensures var q := Run(EMPTY, steps);
            Earlier(q.events, i, j) && q.events[j].status != Pending ==> q.events[i].status in {Processed, Dead}
  {
    RunKeepsOrder(EMPTY, steps);
    RunKeepsInv(EMPTY, steps);
    var q := Run(EMPTY, steps);
    assert AttemptsFit(q.events[i]) && AttemptsFit(q.events[j]);
    if i != j { assert Precedes(q, i, j) || Precedes(q, j, i); }
  }

  /** Deliveries in (received_at, id) order are in time. */
  lemma OrderedArrivalIsInTime(q: Queue, s: Timed)
    requires s.step.DoInsert?
    requires forall j :: j in q.events ==> q.events[j].receivedAt < s.step.receivedAt || (q.events[j].receivedAt == s.step.receivedAt && j < s.step.id)
    ensures StepInOrder(q, s)
  {
  }

  // ------------------------------------------------------------------ attempts

  /** Claims and releases of a row since it was inserted or replayed. */
  datatype Tally = Tally(claims: int, releases: int)

  ghost function Count(q: Queue, s: Timed, id: nat, before: Tally): Tally {
    match s.step
    case DoInsert(inserted, _, _, _, _) => if inserted == id && id !in q.events then Tally(0, 0) else before
    case DoReplay(replayed) => if replayed == id && id in q.events && q.events[id].status == Dead then Tally(0, 0) else before
    case DoClaim(_, limit, _, locked) => if id in TakenBy(q, limit, s.now, locked) then before.(claims := before.claims + 1) else before
    case DoWrite(t, w) => if t.id == id && w.Release? && Owns(q, t) then before.(releases := before.releases + 1) else before
  }

  ghost function Counted(q: Queue, steps: seq<Timed>, id: nat): Tally {
    if steps == [] then Tally(0, 0)
    else Count(Run(q, steps[..|steps| - 1]), steps[|steps| - 1], id, Counted(q, steps[..|steps| - 1], id))
  }

  lemma CountIsAttempts(q: Queue, s: Timed, id: nat, before: Tally)
    requires Inv(q) && (id in q.events ==> q.events[id].attempts == before.claims - before.releases)
    ensures id in Apply(q, s).events ==>
              Apply(q, s).events[id].attempts == Count(q, s, id, before).claims - Count(q, s, id, before).releases
  {
    hide First;
    if id in q.events { assert LeaseFits(q, id, q.events[id]) && AttemptsFit(q.events[id]); }
    if s.step.DoClaim? && id in TakenBy(q, s.step.limit, s.now, s.step.locked) {
      assert id in Claimable(q.events, s.now, s.step.locked);
    }
  }

  /** In every run, a row's attempts are its claims minus its releases since it was inserted or replayed. */
  lemma {:induction false} AttemptsAreClaimsMinusReleases(steps: seq<Timed>, id: nat)
    ensures id in Run(EMPTY, steps).events ==>
              Run(EMPTY, steps).events[id].attempts == Counted(EMPTY, steps, id).claims - Counted(EMPTY, steps, id).releases
  {
    if steps != [] {
      var front := steps[..|steps| - 1];
      AttemptsAreClaimsMinusReleases(front, id);
      RunKeepsInv(EMPTY, front);
      CountIsAttempts(Run(EMPTY, front), steps[|steps| - 1], id, Counted(EMPTY, front, id));
    }
  }

  // ------------------------------------------------------------------ progress

  lemma EarliestExists(q: Queue, ids: set<nat>) returns (i: nat)
    requires ids <= q.events.Keys && ids != {}
    ensures i in ids && forall j :: j in ids && j != i ==> Earlier(q.events, i, j)
  {
    var any :| any in ids;
    i := any;
    if ids - {any} != {} {
      var k := EarliestExists(q, ids - {any});
      if !Earlier(q.events, any, k) { i := k; }
    }
    assert forall j :: j in ids ==> j == any || j in ids - {any};
  }

  /** The earliest of a set holding every unfinished event of its item waits for no one. */
  lemma HeadIsFree(q: Queue, ids: set<nat>, head: nat)
    requires ids <= q.events.Keys && head in ids
    requires forall j :: j in ids && j != head ==> Earlier(q.events, head, j)
    requires forall j :: j in q.events && SameItem(q.events[j], q.events[head]) && q.events[j].Unfinished() ==> j in ids
    ensures !Blocked(q.events, head)
  {
  }

  /** When the row is due, or its lease over. */
  function ReadyAt(e: Event): int {
    if e.status == Processing && e.leaseExpiresAt.Some? then e.leaseExpiresAt.value else e.availableAt
  }

  /** Such a row, ready and in nobody's hands, is one the claim chooses from. */
  lemma HeadIsChosen(q: Queue, id: nat, now: int, locked: set<nat>)
    requires Inv(q) && id in q.events && q.events[id].Unfinished() && !Blocked(q.events, id) && ReadyAt(q.events[id]) <= now && id !in locked
    ensures id in Claimable(q.events, now, locked) || id in Exhausted(q.events, now, locked)
  {
    assert LeaseFits(q, id, q.events[id]);
  }

  /**
   Progress. Whatever happened before, if some event is unfinished then from some time on every claim, however
   small its limit, either takes an event or gives one up.
   */
  lemma SomeEventMoves(steps: seq<Timed>) returns (ready: int)
    requires var q := Run(EMPTY, steps); exists i :: i in q.events && q.events[i].Unfinished()
    ensures var q := Run(EMPTY, steps);
            forall limit: nat, now :: limit > 0 && now >= ready ==> TakenBy(q, limit, now, {}) + KilledBy(q, now, {}) != {}
  {
    var q := Run(EMPTY, steps);
    RunKeepsInv(EMPTY, steps);
    var some :| some in q.events && q.events[some].Unfinished();
    var head := ItemHasHead(q, some);
    ready := ReadyAt(q.events[head]);
    forall limit: nat, now | limit > 0 && now >= ready
      ensures TakenBy(q, limit, now, {}) + KilledBy(q, now, {}) != {}
    {
      HeadIsChosen(q, head, now, {});
      assert Min(limit, MAX_CLAIM_LIMIT) > 0;
    }
  }

  /** The first unfinished event of an item waits for no other. */
  lemma ItemHasHead(q: Queue, id: nat) returns (head: nat)
    requires id in q.events && q.events[id].Unfinished()
    ensures head in q.events && q.events[head].Unfinished() && !Blocked(q.events, head)
    ensures head == id || SameItem(q.events[head], q.events[id])
  {
    var siblings := set i | i in q.events && q.events[i].Unfinished() && (i == id || SameItem(q.events[i], q.events[id]));
    assert id in siblings;
    head := EarliestExists(q, siblings);
    HeadIsFree(q, siblings, head);
  }

  // ------------------------------------------------------------------ every item gets its turn

  /** One unit for each claim an unfinished row can still get, and one for being written off. */
  predicate Unit(e: Event, k: int) {
    e.Unfinished() && e.attempts <= k <= MAX_ATTEMPTS
  }

  /** What claims could still do to the rows that are not due after `head`: at most nine units a row. */
  function Ahead(events: Events, head: nat): set<(nat, int)>
    requires head in events
  {
    set i, k | i in events && 0 <= k <= MAX_ATTEMPTS && Unit(events[i], k) && Due(events, i, head) :: (i, k)
  }

  /** A claim that takes the row or gives it up, or a write of the worker who holds it. */
  ghost predicate Serves(q: Queue, s: Timed, head: nat) {
    match s.step
    case DoClaim(_, limit, _, locked) => head in TakenBy(q, limit, s.now, locked) || head in KilledBy(q, s.now, locked)
    case DoWrite(t, _) => t.id == head && Owns(q, t)
    case _ => false
  }

  /** The step comes when the head is due, no retry lies in the past, and no earlier event of the head's item comes in. */
  ghost predicate Behind(q: Queue, s: Timed, head: nat) {
    && head in q.events && q.events[head].availableAt < s.now && ReadyAt(q.events[head]) <= s.now
    && match s.step
       case DoInsert(id, provider, item, dedupeKey, receivedAt) =>
         id in q.events || !Precedes(Insert(q, id, Delivered(provider, item, dedupeKey, receivedAt, s.now)), id, head)
       case DoReplay(id) => !Precedes(q, id, head)
       case DoWrite(_, w) => w.ScheduleRetry? ==> s.now <= w.availableAt
       case _ => true
  }

  /** A claim, however small its limit, that finds the row unlocked. */
  predicate ClaimFor(s: Timed, head: nat) {
    s.step.DoClaim? && s.step.limit > 0 && head !in s.step.locked
  }

  /** A step that does not serve the head leaves it waiting for no one, and puts nothing in front of it; a claim takes something from there. */
  lemma TurnComesCloser(q: Queue, s: Timed, head: nat)
    requires Inv(q) && Behind(q, s, head) && q.events[head].Unfinished() && !Blocked(q.events, head) && !Serves(q, s, head)
    ensures var after := Apply(q, s);
            && head in after.events && after.events[head] == q.events[head] && !Blocked(after.events, head)
            && Ahead(after.events, head) <= Ahead(q.events, head)
            && (ClaimFor(s, head) ==> Ahead(after.events, head) < Ahead(q.events, head))
  {
    hide First, Written;
    match s.step {
      case DoClaim(worker, limit, leaseMs, locked) =>
        ClaimTakesFromAhead(q, worker, limit, leaseMs, s.now, locked, head);
      case DoWrite(t, w) =>
        WritePutsNothingAhead(q, t, w, s.now, head);
      case _ =>
    }
  }

  lemma WritePutsNothingAhead(q: Queue, t: Ticket, w: Write, now: int, head: nat)
    requires head in q.events && q.events[head].availableAt < now && !Blocked(q.events, head) && !(t.id == head && Owns(q, t))
    requires w.ScheduleRetry? ==> now <= w.availableAt
    ensures var after := Perform(q, t, w, now).0;
            && head in after.events && after.events[head] == q.events[head] && !Blocked(after.events, head)
            && Ahead(after.events, head) <= Ahead(q.events, head)
  {
  }

  lemma ClaimTakesFromAhead(q: Queue, worker: nat, limit: nat, leaseMs: nat, now: int, locked: set<nat>, head: nat)
    requires Inv(q) && head in q.events && q.events[head].Unfinished() && !Blocked(q.events, head) && ReadyAt(q.events[head]) <= now
    requires head !in TakenBy(q, limit, now, locked) && head !in KilledBy(q, now, locked)
    ensures var after := Claim(q, worker, limit, leaseMs, now, locked);
            && Ahead(after.events, head) <= Ahead(q.events, head)
            && (limit > 0 && head !in locked ==> Ahead(after.events, head) < Ahead(q.events, head))
  {
    var after := Claim(q, worker, limit, leaseMs, now, locked);
    hide First;
    if limit > 0 && head !in locked {
      HeadIsChosen(q, head, now, locked);
      var gone := BeforeHead(q, limit, now, locked, head);
      assert Unit(q.events[gone], q.events[gone].attempts) && AttemptsFit(q.events[gone]);
      assert (gone, q.events[gone].attempts) in Ahead(q.events, head);
      assert (gone, q.events[gone].attempts) !in Ahead(after.events, head);
    }
  }

  /** A claim that passes the head over takes or gives up a row not due after it. */
  lemma BeforeHead(q: Queue, limit: nat, now: int, locked: set<nat>, head: nat) returns (gone: nat)
    requires Inv(q) && limit > 0 && head !in TakenBy(q, limit, now, locked) && head !in KilledBy(q, now, locked)
    requires head in Claimable(q.events, now, locked) || head in Exhausted(q.events, now, locked)
    ensures gone in TakenBy(q, limit, now, locked) || gone in KilledBy(q, now, locked)
    ensures gone in q.events && q.events[gone].Unfinished() && Due(q.events, gone, head)
  {
    hide First;
    var claimable, exhausted := Claimable(q.events, now, locked), Exhausted(q.events, now, locked);
    if head in claimable {
      assert Min(limit, MAX_CLAIM_LIMIT) > 0;
      FirstComesFirst(q.events, claimable, Min(limit, MAX_CLAIM_LIMIT));
      gone :| gone in TakenBy(q, limit, now, locked);
      assert gone in claimable;
    } else {
      FirstComesFirst(q.events, exhausted, MAX_CLAIM_LIMIT);
      gone :| gone in KilledBy(q, now, locked);
      assert gone in exhausted;
    }
  }

  function ClaimsFor(steps: seq<Timed>, head: nat): nat {
    if steps == [] then 0 else ClaimsFor(steps[..|steps| - 1], head) + if ClaimFor(steps[|steps| - 1], head) then 1 else 0
  }

  ghost predicate NeverServed(q: Queue, steps: seq<Timed>, head: nat) {
    forall k :: 0 <= k < |steps| ==> !Serves(Run(q, steps[..k]), steps[k], head)
  }

  ghost predicate AllBehind(q: Queue, steps: seq<Timed>, head: nat) {
    forall k :: 0 <= k < |steps| ==> Behind(Run(q, steps[..k]), steps[k], head)
  }

  lemma {:induction false} TurnComes(q: Queue, steps: seq<Timed>, head: nat)
    requires Inv(q) && head in q.events && q.events[head].Unfinished() && !Blocked(q.events, head)
    requires AllBehind(q, steps, head) && NeverServed(q, steps, head)
    ensures var after := Run(q, steps);
            && head in after.events && after.events[head] == q.events[head] && !Blocked(after.events, head)
            && |Ahead(after.events, head)| + ClaimsFor(steps, head) <= |Ahead(q.events, head)|
            && 0 < |Ahead(after.events, head)|
  {
    if steps == [] {
      HeadIsAhead(q, head);
    } else {
      var front, last := steps[..|steps| - 1], steps[|steps| - 1];
      forall k | 0 <= k < |front|
        ensures front[..k] == steps[..k] && Behind(Run(q, front[..k]), front[k], head) && !Serves(Run(q, front[..k]), front[k], head)
      {
        assert front[..k] == steps[..k];
      }
      hide Behind, Serves, Ahead, Apply, Blocked;
      TurnComes(q, front, head);
      RunKeepsInv(q, front);
      var before := Run(q, front);
      assert Behind(before, last, head) && !Serves(before, last, head);
      TurnComesCloser(before, last, head);
      Smaller(Ahead(Apply(before, last).events, head), Ahead(before.events, head));
      RunKeepsInv(q, steps);
      HeadIsAhead(Run(q, steps), head);
    }
  }

  lemma HeadIsAhead(q: Queue, head: nat)
    requires Inv(q) && head in q.events && q.events[head].Unfinished()
    ensures 0 < |Ahead(q.events, head)|
  {
    assert AttemptsFit(q.events[head]);
    assert (head, MAX_ATTEMPTS) in Ahead(q.events, head);
  }

  lemma Smaller<T>(a: set<T>, b: set<T>)
    requires a <= b
    ensures |a| <= |b| && (a < b ==> |a| < |b|)
  {
    assert b == a + (b - a);
    assert |b| == |a| + |b - a|;
    if a < b { assert b - a != {}; }
  }

  /**
   No item starves. Take any reachable queue and the first unfinished event of an item, once it is due. Whatever
   workers then claim, write, release, insert and replay, as long as no earlier event of that item comes in: among
   the steps that hold as many claims as there are units ahead, of any limits, one serves the event.
   */
  lemma EveryItemMoves(past: seq<Timed>, head: nat, steps: seq<Timed>)
    requires var q := Run(EMPTY, past);
             && head in q.events && q.events[head].Unfinished() && !Blocked(q.events, head)
             && AllBehind(q, steps, head) && |Ahead(q.events, head)| <= ClaimsFor(steps, head)
    ensures var q := Run(EMPTY, past);
            exists k :: 0 <= k < |steps| && Serves(Run(q, steps[..k]), steps[k], head)
  {
    var q := Run(EMPTY, past);
    RunKeepsInv(EMPTY, past);
    if NeverServed(q, steps, head) { TurnComes(q, steps, head); }
  }

  // ------------------------------------------------------------------ everything finishes

  function Units(events: Events): set<(nat, int)> {
    set i, k | i in events && 0 <= k <= MAX_ATTEMPTS && Unit(events[i], k) :: (i, k)
  }

  ghost predicate AllFinished(q: Queue) {
    forall i :: i in q.events ==> !q.events[i].Unfinished()
  }

  /** Neither a new delivery, nor a replay, nor a claim handed back unused. */
  predicate Consumes(s: Timed) {
    !s.step.DoInsert? && !s.step.DoReplay? && !(s.step.DoWrite? && s.step.write.Release?)
  }

  /** A claim that comes when some item's first unfinished event is ready and unlocked, if any event is unfinished at all. */
  ghost predicate Timely(q: Queue, s: Timed) {
    && s.step.DoClaim? && s.step.limit > 0
    && (AllFinished(q) || exists i :: i in q.events && q.events[i].Unfinished() && !Blocked(q.events, i) && ReadyAt(q.events[i]) <= s.now
                                    && i !in s.step.locked)
  }

  ghost function TimelyClaims(q: Queue, steps: seq<Timed>): nat {
    if steps == [] then 0
    else TimelyClaims(q, steps[..|steps| - 1]) + if Timely(Run(q, steps[..|steps| - 1]), steps[|steps| - 1]) then 1 else 0
  }

  lemma UnitsShrink(q: Queue, s: Timed)
    requires Inv(q) && Consumes(s)
    ensures Units(Apply(q, s).events) <= Units(q.events)
    ensures Timely(q, s) && !AllFinished(q) ==> Units(Apply(q, s).events) < Units(q.events)
  {
    if s.step.DoClaim? { ClaimShrinksUnits(q, s); }
  }

  lemma ClaimShrinksUnits(q: Queue, s: Timed)
    requires Inv(q) && s.step.DoClaim?
    ensures Units(Apply(q, s).events) <= Units(q.events)
    ensures Timely(q, s) && !AllFinished(q) ==> Units(Apply(q, s).events) < Units(q.events)
  {
    hide First;
    if Timely(q, s) && !AllFinished(q) {
      var limit, locked := s.step.limit, s.step.locked;
      var i :| i in q.events && q.events[i].Unfinished() && !Blocked(q.events, i) && ReadyAt(q.events[i]) <= s.now && i !in locked;
      HeadIsChosen(q, i, s.now, locked);
      var gone := SomeChosen(q, limit, s.now, locked, i);
      assert AttemptsFit(q.events[gone]);
      assert (gone, q.events[gone].attempts) in Units(q.events);
      assert (gone, q.events[gone].attempts) !in Units(Apply(q, s).events);
    }
  }

  lemma SomeChosen(q: Queue, limit: nat, now: int, locked: set<nat>, i: nat) returns (gone: nat)
    requires Inv(q) && limit > 0 && (i in Claimable(q.events, now, locked) || i in Exhausted(q.events, now, locked))
    ensures gone in TakenBy(q, limit, now, locked) || gone in KilledBy(q, now, locked)
    ensures gone in q.events && q.events[gone].Unfinished()
  {
    hide First;
    if i in TakenBy(q, limit, now, locked) || i in KilledBy(q, now, locked) {
      gone := i;
    } else {
      gone := BeforeHead(q, limit, now, locked, i);
    }
  }

  /** Once nothing new comes in, every timely claim uses up at least one unit, so after that many claims nothing is left to do. */
  lemma {:induction false} EverythingFinishes(q: Queue, steps: seq<Timed>)
    requires Inv(q) && forall k :: 0 <= k < |steps| ==> Consumes(steps[k])
    ensures TimelyClaims(q, steps) + |Units(Run(q, steps).events)| <= |Units(q.events)| || AllFinished(Run(q, steps))
    ensures |Units(q.events)| <= TimelyClaims(q, steps) ==> AllFinished(Run(q, steps))
  {
    hide Apply, Units, Timely, AllFinished, Inv, Consumes;
    if steps != [] {
      var front, last := steps[..|steps| - 1], steps[|steps| - 1];
      EverythingFinishes(q, front);
      RunKeepsInv(q, front);
      var before := Run(q, front);
      assert Consumes(last);
      UnitsShrink(before, last);
      Smaller(Units(Apply(before, last).events), Units(before.events));
      FinishedIsNoUnits(before);
      RunKeepsInv(q, steps);
    }
    FinishedIsNoUnits(Run(q, steps));
  }

  lemma FinishedIsNoUnits(q: Queue)
    requires Inv(q)
    ensures AllFinished(q) <==> |Units(q.events)| == 0
  {
    if i :| i in q.events && q.events[i].Unfinished() {
      assert AttemptsFit(q.events[i]);
      assert (i, MAX_ATTEMPTS) in Units(q.events);
    } else {
      assert Units(q.events) == {};
    }
  }
}
