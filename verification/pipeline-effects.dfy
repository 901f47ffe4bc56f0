/** How an attempt at the pipeline ends and what it records, in terms of its ports, its lease and its cancellation (src/modules/pipeline/pipeline.service.ts). */
module PipelineEffects {
  import opened Wrappers
  import opened Pipeline
  import opened PipelineProofs

  /** The run is this job's, and the job row still runs under this attempt's lease token. */
  predicate HoldsLease(a: Attempt, run: Run, row: JobRow) {
    run.job == a.job && row.id == a.job && row.running && row.token == a.token
  }

  /** Whether the signal is aborted at the check with this number, counted from 0. */
  ghost predicate AbortedBy(a: Attempt, check: nat) {
    exists k :: a.cancelAt == Some(k) && k <= check
  }

  predicate Succeeded(steps: Steps, s: Stage) {
    s in steps && steps[s] == StepSuccess
  }

  /** A port that is not wired up fails, and may be retried. */
  predicate PortFails(a: Attempt, s: Stage) {
    s !in a.ports || a.ports[s].Fails?
  }

  predicate PortMayRetry(a: Attempt, s: Stage) {
    s !in a.ports || (a.ports[s].Fails? && a.ports[s].retryable)
  }

  predicate AboutBills(s: Stage) {
    s in {BillDetect, BillMaterialize}
  }

  lemma LeaseMeans(a: Attempt, run: Run, row: JobRow)
    ensures a.Owns(run, row) <==> HoldsLease(a, run, row)
  {
  }

  lemma AbortMeans(a: Attempt, check: nat)
    ensures a.Cancelled(check) <==> AbortedBy(a, check)
  {
    if a.Cancelled(check) { assert a.cancelAt == Some(a.cancelAt.value) && a.cancelAt.value <= check; }
  }

  lemma PortMeans(a: Attempt, s: Stage)
    ensures Result(a, s).Fails? <==> PortFails(a, s)
    ensures Result(a, s).Fails? && Result(a, s).retryable <==> PortMayRetry(a, s)
  {
  }

  /** What a completed attempt records for a stage: an old success stays, bills are left out after a failed sync, and else the port decides. */
  function StepFor(a: Attempt, before: Steps, s: Stage): StepStatus {
    if Succeeded(before, s) then StepSuccess
    else if AboutBills(s) && !Succeeded(before, PlaidSync) && PortFails(a, PlaidSync) then StepSkipped
    else if PortFails(a, s) then StepFailed else StepSuccess
  }

  lemma StepIsRecorded(a: Attempt, before: Steps, s: Stage)
    ensures Recorded(a, before, s) == StepFor(a, before, s)
  {
    PortMeans(a, s);
    PortMeans(a, PlaidSync);
    hide Result;
  }

  /** A completed attempt recorded every stage so, held the lease at its end, and asks for a retry exactly when the sync failed and may be retried. */
  lemma CompletedRecords(run: Run, a: Attempt)
    requires BillsFollowSync(run.steps)
    requires Execute(run, a).1 in {Completed, CompletedForRetry}
    ensures var (after, end, ran) := Execute(run, a);
            && HoldsLease(a, run, a.atFinish) && (run.steps != map[] ==> HoldsLease(a, run, a.atReopen))
            && (forall s :: s in after.steps && after.steps[s] == StepFor(a, run.steps, s))
            && (end == CompletedForRetry <==> !Succeeded(run.steps, PlaidSync) && PortMayRetry(a, PlaidSync))
  {
    LeaseMeans(a, run, a.atFinish);
    LeaseMeans(a, run, a.atReopen);
    PortMeans(a, PlaidSync);
    CompletedMeans(run, a);
    forall s
      ensures Recorded(a, run.steps, s) == StepFor(a, run.steps, s)
    {
      StepIsRecorded(a, run.steps, s);
    }
    hide Turns, Turn, Recorded, StepFor, Result, Inv;
  }

  /**
   Refused before any stage: with the signal aborted at one of the first two checks, for another job's run, or with
   steps to resume under a lease that is not the job's, an attempt changes nothing and calls no port.
   */
  lemma RefusedEarly(run: Run, a: Attempt)
    ensures AbortedBy(a, 0) ==> Execute(run, a) == (run, Aborted, [])
    ensures !AbortedBy(a, 0) && run.job != a.job ==> Execute(run, a) == (run, WrongJob, [])
    ensures !AbortedBy(a, 0) && run.job == a.job && AbortedBy(a, 1) ==> Execute(run, a) == (run, Aborted, [])
    ensures !AbortedBy(a, 1) && run.job == a.job && run.steps != map[] && !HoldsLease(a, run, a.atReopen) ==> Execute(run, a) == (run, LeaseLost, [])
    ensures Execute(run, a).1 == WrongJob <==> !AbortedBy(a, 0) && run.job != a.job
  {
    AbortMeans(a, 0);
    AbortMeans(a, 1);
    LeaseMeans(a, run, a.atReopen);
    hide Turns;
  }

  /** How often an attempt looks at its signal in a stage: once for one done before, twice for one left out, else three times. */
  function ChecksOf(a: Attempt, before: Steps, s: Stage): nat {
    if Succeeded(before, s) then 1 else if StepFor(a, before, s) == StepSkipped then 2 else 3
  }

  function ChecksBefore(a: Attempt, before: Steps, n: nat): nat
    requires n <= |STAGES|
  {
    if n == 0 then 2 else ChecksBefore(a, before, n - 1) + ChecksOf(a, before, STAGES[n - 1])
  }

  lemma {:induction false} ChecksCounted(a: Attempt, run: Run, n: nat)
    requires n <= |STAGES| && BillsFollowSync(run.steps)
    ensures var p := Turns(a, run.steps, STAGES[..n], Start(run));
            && (p.aborted <==> n > 0 && AbortedBy(a, ChecksBefore(a, run.steps, n) - 1))
            && (!p.aborted ==> p.checks == ChecksBefore(a, run.steps, n))
  {
    hide Turns, Turn, AbortedBy, ChecksOf, Recording, Respects, BillsFollowSync;
    if n == 0 {
      NoTurns(a, run);
    } else {
      TurnsStep(a, run, n);
      ChecksCounted(a, run, n - 1);
      TurnsMean(a, run, n - 1);
      TurnCounts(a, run.steps, n - 1, Turns(a, run.steps, STAGES[..n - 1], Start(run)));
      AtLeastTwo(a, run.steps, n - 1);
      LaterToo(a, ChecksBefore(a, run.steps, n - 1), ChecksBefore(a, run.steps, n));
    }
  }

  lemma NoTurns(a: Attempt, run: Run)
    ensures Turns(a, run.steps, STAGES[..0], Start(run)) == Start(run)
  {
  }

  lemma TurnsStep(a: Attempt, run: Run, n: nat)
    requires 0 < n <= |STAGES|
    ensures Turns(a, run.steps, STAGES[..n], Start(run)) == Turn(a, run.steps, STAGES[n - 1], Turns(a, run.steps, STAGES[..n - 1], Start(run)))
  {
    hide Turn;
    assert STAGES[..n][..n - 1] == STAGES[..n - 1];
  }

  lemma LaterToo(a: Attempt, m: nat, n: nat)
    requires m <= n && m > 0
    ensures AbortedBy(a, m - 1) ==> AbortedBy(a, n - 1)
  {
  }

  lemma TurnCounts(a: Attempt, before: Steps, n: nat, p: Progress)
    requires n < |STAGES| && (!p.aborted ==> Recording(a, before, n, p))
    ensures var next := Turn(a, before, STAGES[n], p);
            var checks := ChecksOf(a, before, STAGES[n]);
            && (p.aborted ==> next.aborted)
            && (!p.aborted ==> (next.aborted <==> AbortedBy(a, p.checks + checks - 1)) && (!next.aborted ==> next.checks == p.checks + checks))
  {
    var stage := STAGES[n];
    StepIsRecorded(a, before, stage);
    StagesDiffer(n);
    AbortMeans(a, p.checks);
    AbortMeans(a, p.checks + 1);
    AbortMeans(a, p.checks + 2);
    LaterToo(a, p.checks + 1, p.checks + 2);
    LaterToo(a, p.checks + 2, p.checks + 3);
    hide AbortedBy, StepFor, FailedBy, Result;
    EndedCounts(p, stage, Result(a, stage));
    if BillStage(stage) { assert n > 0; }
  }

  lemma EndedCounts(p: Progress, stage: Stage, result: PortResult)
    ensures forall q: Progress :: Ended(q, stage, result).checks == q.checks + 3 && Ended(q, stage, result).aborted == q.aborted
  {
  }

  /** An attempt that may start is cut off exactly when its signal is aborted by its last check, whose number is the sum over the stages. */
  lemma CutOffIff(run: Run, a: Attempt)
    requires BillsFollowSync(run.steps) && run.job == a.job && (run.steps != map[] ==> HoldsLease(a, run, a.atReopen))
    ensures Execute(run, a).1 == Aborted <==> AbortedBy(a, ChecksBefore(a, run.steps, |STAGES|))
    ensures Execute(run, a).1 == LeaseLost <==> !AbortedBy(a, ChecksBefore(a, run.steps, |STAGES|)) && !HoldsLease(a, run, a.atFinish)
  {
    var total := ChecksBefore(a, run.steps, |STAGES|);
    assert STAGES[..|STAGES|] == STAGES;
    ChecksCounted(a, run, |STAGES|);
    AtLeastTwo(a, run.steps, |STAGES|);
    AbortMeans(a, 0);
    AbortMeans(a, 1);
    AbortMeans(a, total);
    LaterToo(a, 1, 2);
    LaterToo(a, 2, total + 1);
    LaterToo(a, total, total + 1);
    LeaseMeans(a, run, a.atReopen);
    LeaseMeans(a, run, a.atFinish);
    hide Turns, AbortedBy, ChecksBefore, HoldsLease;
  }

  lemma {:induction false} AtLeastTwo(a: Attempt, before: Steps, n: nat)
    requires n <= |STAGES|
    ensures ChecksBefore(a, before, n) >= 2
  {
    if n > 0 { AtLeastTwo(a, before, n - 1); }
  }
}
