/** What holds over any sequence of attempts at a pipeline run. */
module PipelineProofs {
  import opened Wrappers
  import opened Pipeline

  /** Attempts of one run do not overlap; between them the job may be found expired. */
  datatype Event = DoAttempt(attempt: Attempt) | DoExpire(job: nat)

  function Apply(run: Run, event: Event): Run {
    match event
    case DoAttempt(a) => Execute(run, a).0
    case DoExpire(job) => Expire(run, job)
  }

  function After(run: Run, events: seq<Event>): Run {
    if events == [] then run else Apply(After(run, events[..|events| - 1]), events[|events| - 1])
  }

  function Fresh(job: nat): Run {
    Run(job, Running, false, map[])
  }

  predicate AllDone(steps: Steps) {
    forall k :: 0 <= k < |STAGES| ==> Done(steps, STAGES[k])
  }

  predicate BillsFollowSync(steps: Steps) {
    Done(steps, BillDetect) || Done(steps, BillMaterialize) ==> Done(steps, PlaidSync)
  }

  /** What the recorded status of a run says about its steps. */
  predicate Inv(run: Run) {
    && BillsFollowSync(run.steps)
    && (run.finished <==> run.status != Running)
    && (run.status == Success ==> AllDone(run.steps))
    && (run.status == Partial ==> Done(run.steps, PlaidSync) && !AllDone(run.steps))
  }

  // ------------------------------------------------------------------ one attempt, stage by stage

  function Index(stage: Stage): (k: nat)
    ensures k < |STAGES| && STAGES[k] == stage
  {
    match stage
    case PlaidSync => 0
    case LiabilitiesSync => 1
    case BillDetect => 2
    case BillMaterialize => 3
    case OverdueSweep => 4
    case Reconcile => 5
    case BalanceRefresh => 6
    case NetWorthSnapshot => 7
    case BudgetCheck => 8
  }

  lemma StagesDiffer(k: nat)
    requires k < |STAGES|
    ensures Index(STAGES[k]) == k
  {
  }

  predicate SyncFails(a: Attempt, before: Steps) {
    !Done(before, PlaidSync) && Result(a, PlaidSync).Fails?
  }

  /** What an attempt that gets past a stage records for it. */
  function Recorded(a: Attempt, before: Steps, stage: Stage): StepStatus {
    if Done(before, stage) then StepSuccess
    else if BillStage(stage) && SyncFails(a, before) then StepSkipped
    else if Result(a, stage).Succeeds? then StepSuccess else StepFailed
  }

  /** Some of the first `n` stages failed. */
  predicate FailedBy(a: Attempt, before: Steps, n: nat)
    requires n <= |STAGES|
  {
    n > 0 && (FailedBy(a, before, n - 1) || Recorded(a, before, STAGES[n - 1]) == StepFailed)
  }

  lemma {:induction false} FailedMeans(a: Attempt, before: Steps, n: nat)
    requires n <= |STAGES|
    ensures FailedBy(a, before, n) <==> exists s :: Index(s) < n && Recorded(a, before, s) == StepFailed
  {
    hide Recorded;
    if n > 0 {
      FailedMeans(a, before, n - 1);
      StagesDiffer(n - 1);
    }
  }

  /** The steps of a run after the first `n` stages, when no check found the signal aborted. */
  ghost predicate Recording(a: Attempt, before: Steps, n: nat, p: Progress)
    requires n <= |STAGES|
  {
    && (forall s :: Index(s) < n ==> s in p.steps && p.steps[s] == Recorded(a, before, s))
    && (forall s :: Index(s) >= n ==> (s in p.steps <==> s in before) && (s in before ==> p.steps[s] == before[s]))
    && p.syncFailed == (n > 0 && SyncFails(a, before))
    && p.anyFailed == FailedBy(a, before, n)
    && p.retry == (n > 0 && SyncFails(a, before) && Result(a, PlaidSync).retryable)
  }

  /** In every case: recorded successes stay, only other stages are called, each once and in order. */
  ghost predicate Respects(before: Steps, n: nat, p: Progress) {
    && (forall s :: Done(before, s) ==> Done(p.steps, s))
    && (forall k :: 0 <= k < |p.ran| ==> !Done(before, p.ran[k]) && Index(p.ran[k]) < n)
    && (forall j, k :: 0 <= j < k < |p.ran| ==> Index(p.ran[j]) < Index(p.ran[k]))
    && BillsFollowSync(p.steps)
  }

  lemma {:induction false} TurnsMean(a: Attempt, run: Run, n: nat)
    requires n <= |STAGES| && BillsFollowSync(run.steps)
    ensures var p := Turns(a, run.steps, STAGES[..n], Start(run));
            Respects(run.steps, n, p) && (!p.aborted ==> Recording(a, run.steps, n, p))
  {
    hide Turn, BillsFollowSync;
    if n > 0 {
      assert STAGES[..n][..n - 1] == STAGES[..n - 1];
      TurnsMean(a, run, n - 1);
      var p := Turns(a, run.steps, STAGES[..n - 1], Start(run));
      TurnRespects(a, run.steps, n - 1, p);
      TurnRecords(a, run.steps, n - 1, p);
    }
  }

  lemma Overwrite(steps: Steps, stage: Stage, status: StepStatus)
    ensures steps[stage := StepRunning][stage := status] == steps[stage := status]
  {
  }

  function OutcomeNow(a: Attempt, before: Steps, stage: Stage, p: Progress): StepStatus {
    if BillStage(stage) && p.syncFailed then StepSkipped else if Result(a, stage).Succeeds? then StepSuccess else StepFailed
  }

  /** A turn that is not cut off writes the stage's outcome, unless the stage is done already. */
  lemma TurnWrites(a: Attempt, before: Steps, stage: Stage, p: Progress)
    requires !Turn(a, before, stage, p).aborted
    ensures var next := Turn(a, before, stage, p);
            var now, failed := OutcomeNow(a, before, stage, p), !Done(before, stage) && OutcomeNow(a, before, stage, p) == StepFailed;
            && !p.aborted
            && next.steps == (if Done(before, stage) then p.steps else p.steps[stage := now])
            && next.anyFailed == (p.anyFailed || failed)
            && next.syncFailed == (p.syncFailed || (failed && stage == PlaidSync))
            && next.retry == (p.retry || (failed && stage == PlaidSync && Result(a, stage).retryable))
  {
    hide Done, BillStage, Result;
    Overwrite(p.steps, stage, OutcomeNow(a, before, stage, p));
  }

  /** A turn that is cut off leaves at most a step marked as running. */
  lemma TurnCut(a: Attempt, before: Steps, stage: Stage, p: Progress)
    requires Turn(a, before, stage, p).aborted
    ensures var next := Turn(a, before, stage, p);
            next.steps == p.steps || (!p.aborted && !Done(before, stage) && next.steps == p.steps[stage := StepRunning])
  {
    hide Done, BillStage, Result, Ended;
    EndedGoesOn(p, stage, Result(a, stage));
  }

  lemma EndedGoesOn(p: Progress, stage: Stage, result: PortResult)
    ensures forall q: Progress :: Ended(q, stage, result).aborted == q.aborted
  {
  }

  lemma TurnCalls(a: Attempt, before: Steps, stage: Stage, p: Progress)
    ensures var next := Turn(a, before, stage, p);
            next.ran == p.ran || (next.ran == p.ran + [stage] && !Done(before, stage))
  {
    hide Done, BillStage, Result;
  }

  lemma TurnRespects(a: Attempt, before: Steps, n: nat, p: Progress)
    requires n < |STAGES| && Respects(before, n, p) && (!p.aborted ==> Recording(a, before, n, p))
    ensures Respects(before, n + 1, Turn(a, before, STAGES[n], p))
  {
    hide Turn, Recorded, SyncFails, Done;
    var stage, next := STAGES[n], Turn(a, before, STAGES[n], p);
    StagesDiffer(n);
    TurnCalls(a, before, stage, p);
    StepsRespect(a, before, n, p);
  }

  /** How a turn may change the steps. */
  lemma StepsAfter(a: Attempt, before: Steps, stage: Stage, p: Progress) returns (x: StepStatus)
    ensures var next := Turn(a, before, stage, p);
            next.steps == p.steps ||
            (!p.aborted && !Done(before, stage)
             && next.steps == p.steps[stage := x] && (x == StepSuccess && BillStage(stage) ==> !p.syncFailed))
  {
    hide Turn, Done, Result, BillStage;
    if Turn(a, before, stage, p).aborted {
      x := StepRunning;
      TurnCut(a, before, stage, p);
    } else {
      x := OutcomeNow(a, before, stage, p);
      TurnWrites(a, before, stage, p);
    }
  }

  lemma StepsRespect(a: Attempt, before: Steps, n: nat, p: Progress)
    requires n < |STAGES| && Respects(before, n, p) && (!p.aborted ==> Recording(a, before, n, p))
    ensures var next := Turn(a, before, STAGES[n], p);
            (forall s :: Done(before, s) ==> Done(next.steps, s)) && BillsFollowSync(next.steps)
  {
    hide Turn, Result, Recorded, SyncFails, FailedBy;
    var stage, next := STAGES[n], Turn(a, before, STAGES[n], p);
    var x := StepsAfter(a, before, stage, p);
    if next.steps != p.steps {
      assert Index(PlaidSync) == 0 && (stage == PlaidSync <==> n == 0) by { StagesDiffer(n); }
      if BillStage(stage) && !p.syncFailed { SyncedOtherwise(a, before); }
    }
  }

  lemma SyncedOtherwise(a: Attempt, before: Steps)
    requires !SyncFails(a, before)
    ensures Recorded(a, before, PlaidSync) == StepSuccess
  {
  }

  lemma TurnRecords(a: Attempt, before: Steps, n: nat, p: Progress)
    requires n < |STAGES| && (!p.aborted ==> Recording(a, before, n, p))
    ensures var next := Turn(a, before, STAGES[n], p);
            !next.aborted ==> Recording(a, before, n + 1, next)
  {
    hide Turn, Result;
    var stage, next := STAGES[n], Turn(a, before, STAGES[n], p);
    if !next.aborted {
      TurnWrites(a, before, stage, p);
      StagesDiffer(n);
      assert Index(PlaidSync) == 0;
      assert !Done(before, stage) ==> OutcomeNow(a, before, stage, p) == Recorded(a, before, stage) by { hide Done; }
      StepsRecorded(a, before, n, p, next.steps);
      FlagsRecorded(a, before, n, p, next);
      hide OutcomeNow, Index, FailedBy, SyncFails, Recorded, Done;
    }
  }

  lemma FlagsRecorded(a: Attempt, before: Steps, n: nat, p: Progress, next: Progress)
    requires n < |STAGES| && Recording(a, before, n, p)
    requires var failed := !Done(before, STAGES[n]) && Recorded(a, before, STAGES[n]) == StepFailed;
             && next.anyFailed == (p.anyFailed || failed)
             && next.syncFailed == (p.syncFailed || (failed && STAGES[n] == PlaidSync))
             && next.retry == (p.retry || (failed && STAGES[n] == PlaidSync && Result(a, STAGES[n]).retryable))
    ensures next.anyFailed == FailedBy(a, before, n + 1)
    ensures next.syncFailed == SyncFails(a, before)
    ensures next.retry == (SyncFails(a, before) && Result(a, PlaidSync).retryable)
  {
    hide Result;
    assert STAGES[n] == PlaidSync <==> n == 0 by { StagesDiffer(n); assert Index(PlaidSync) == 0; }
    assert Done(before, STAGES[n]) ==> Recorded(a, before, STAGES[n]) == StepSuccess;
  }

  lemma StepsRecorded(a: Attempt, before: Steps, n: nat, p: Progress, steps: Steps)
    requires n < |STAGES| && Recording(a, before, n, p)
    requires steps == if Done(before, STAGES[n]) then p.steps else p.steps[STAGES[n] := Recorded(a, before, STAGES[n])]
    ensures forall s :: Index(s) < n + 1 ==> s in steps && steps[s] == Recorded(a, before, s)
    ensures forall s :: Index(s) >= n + 1 ==> (s in steps <==> s in before) && (s in before ==> steps[s] == before[s])
  {
    hide Result, FailedBy, SyncFails;
    StagesDiffer(n);
    forall s
      ensures Index(s) == n <==> s == STAGES[n]
    {
      assert STAGES[Index(s)] == s;
    }
    hide Index;
    if Done(before, STAGES[n]) {
      assert Recorded(a, before, STAGES[n]) == StepSuccess;
    }
  }

  // ------------------------------------------------------------------ whole runs

  lemma AttemptKeepsInv(run: Run, a: Attempt)
    requires Inv(run)
    ensures Inv(Execute(run, a).0)
    ensures Respects(run.steps, |STAGES|, Start(run).(steps := Execute(run, a).0.steps, ran := Execute(run, a).2))
  {
    AttemptRespects(run, a);
    hide Turns, Done, AllDone, BillsFollowSync;
    assert Respects(run.steps, |STAGES|, Start(run).(steps := Execute(run, a).0.steps, ran := Execute(run, a).2)) by { hide Execute; }
    hide Respects;
    if Execute(run, a).1.Completed? || Execute(run, a).1.CompletedForRetry? {
      CompletedMeans(run, a);
    }
  }

  lemma AttemptRespects(run: Run, a: Attempt)
    requires BillsFollowSync(run.steps)
    ensures Respects(run.steps, |STAGES|, Start(run).(steps := Execute(run, a).0.steps, ran := Execute(run, a).2))
    ensures BillsFollowSync(Execute(run, a).0.steps)
  {
    hide Turns, Done;
    TurnsMean(a, run, |STAGES|);
    assert STAGES[..|STAGES|] == STAGES;
  }

  /**
   An attempt that completes records the run as failed exactly when the sync did not succeed, as successful exactly
   when all nine stages have, and as partial otherwise; each stage got the outcome its port gave it.
   */
  lemma CompletedMeans(run: Run, a: Attempt)
    requires BillsFollowSync(run.steps)
    requires Execute(run, a).1.Completed? || Execute(run, a).1.CompletedForRetry?
    ensures var after := Execute(run, a).0;
            && after.finished
            && (after.status == Failed <==> !Done(after.steps, PlaidSync))
            && (after.status == Success <==> AllDone(after.steps))
            && (after.status == Partial <==> Done(after.steps, PlaidSync) && !AllDone(after.steps))
            && (forall s :: s in after.steps && after.steps[s] == Recorded(a, run.steps, s))
            && (Execute(run, a).1.CompletedForRetry? <==> SyncFails(a, run.steps) && Result(a, PlaidSync).retryable)
  {
    hide Turn, Turns, Recorded, Done;
    TurnsMean(a, run, |STAGES|);
    assert STAGES[..|STAGES|] == STAGES;
    var p := Turns(a, run.steps, STAGES, Start(run));
    assert Recording(a, run.steps, |STAGES|, p);
    FailedMeans(a, run.steps, |STAGES|);
    RecordedMeans(a, run.steps, p.steps);
  }

  lemma RecordedMeans(a: Attempt, before: Steps, after: Steps)
    requires forall s :: s in after && after[s] == Recorded(a, before, s)
    ensures Done(after, PlaidSync) <==> !SyncFails(a, before)
    ensures AllDone(after) <==> !SyncFails(a, before) && forall s :: Recorded(a, before, s) != StepFailed
  {
    if SyncFails(a, before) {
      assert Recorded(a, before, PlaidSync) == StepFailed;
      assert STAGES[0] == PlaidSync;
    }
    forall s
      ensures Done(after, s) <==> Recorded(a, before, s) == StepSuccess
    {
    }
    if AllDone(after) {
      forall s
        ensures Recorded(a, before, s) != StepFailed
      {
        assert Done(after, STAGES[Index(s)]);
      }
    }
  }

  lemma ApplyKeepsInv(run: Run, event: Event)
    requires Inv(run)
    ensures Inv(Apply(run, event))
    ensures forall s :: Done(run.steps, s) ==> Done(Apply(run, event).steps, s)
  {
    hide Execute, Done;
    if event.DoAttempt? { AttemptKeepsInv(run, event.attempt); }
  }

  /** In every reachable state the status agrees with the steps, and a bill stage has succeeded only after the sync. */
  lemma {:induction false} RunsKeepInv(job: nat, events: seq<Event>)
    ensures Inv(After(Fresh(job), events))
  {
    if events != [] {
      RunsKeepInv(job, events[..|events| - 1]);
      ApplyKeepsInv(After(Fresh(job), events[..|events| - 1]), events[|events| - 1]);
    }
  }

  /** A recorded success is never undone. */
  lemma {:induction false} SuccessStays(job: nat, events: seq<Event>, n: nat, s: Stage)
    requires n <= |events| && Done(After(Fresh(job), events[..n]).steps, s)
    ensures Done(After(Fresh(job), events).steps, s)
  {
    if n == |events| {
      assert events[..n] == events;
    } else {
      var front := events[..|events| - 1];
      assert front[..n] == events[..n];
      SuccessStays(job, front, n, s);
      RunsKeepInv(job, front);
      ApplyKeepsInv(After(Fresh(job), front), events[|events| - 1]);
    }
  }

  /** A stage recorded as successful is never run again: no later attempt calls its port. */
  lemma NeverRunAgain(job: nat, events: seq<Event>, n: nat, s: Stage, a: Attempt)
    requires n <= |events| && Done(After(Fresh(job), events[..n]).steps, s)
    ensures s !in Execute(After(Fresh(job), events), a).2
  {
    hide Execute, Done;
    SuccessStays(job, events, n, s);
    RunsKeepInv(job, events);
    AttemptKeepsInv(After(Fresh(job), events), a);
  }

  /** An attempt whose lease is not the job's leaves the run row alone, and with steps to resume it does nothing at all. */
  lemma WithoutLease(run: Run, a: Attempt)
    ensures !a.Owns(run, a.atReopen) && !a.Owns(run, a.atFinish) ==>
              Execute(run, a).0.status == run.status && Execute(run, a).0.finished == run.finished
    ensures !a.Owns(run, a.atReopen) && run.steps != map[] ==> Execute(run, a).0 == run && Execute(run, a).2 == []
    ensures !a.Owns(run, a.atFinish) ==> Execute(run, a).0.status == run.status || Execute(run, a).0.status == Running
  {
    hide Turns;
  }

  /** Whatever happened before, one attempt that keeps its lease and meets no failure completes the run. */
  lemma ResumeCompletes(job: nat, events: seq<Event>, a: Attempt)
    requires a.job == job && a.cancelAt.None? && forall s :: Result(a, s).Succeeds?
    requires var run := After(Fresh(job), events); a.Owns(run, a.atReopen) && a.Owns(run, a.atFinish)
    ensures var run := After(Fresh(job), events);
            var (after, end, ran) := Execute(run, a);
            end == Completed && after.status == Success && AllDone(after.steps)
  {
    var run := After(Fresh(job), events);
    RunsKeepInv(job, events);
    NeverAborted(a, run, |STAGES|);
    assert STAGES[..|STAGES|] == STAGES;
    hide Turn, Turns, Recorded, Done;
    JobStays(job, events);
    TurnsMean(a, run, |STAGES|);
    CompletedMeans(run, a);
    RecordedMeans(a, run.steps, Execute(run, a).0.steps);
    AllRecorded(a, run.steps);
  }

  lemma AllRecorded(a: Attempt, before: Steps)
    requires forall s :: Result(a, s).Succeeds?
    ensures !SyncFails(a, before) && forall s :: Recorded(a, before, s) == StepSuccess
  {
  }

  lemma TurnGoesOn(a: Attempt, before: Steps, stage: Stage, p: Progress)
    requires a.cancelAt.None? && !p.aborted
    ensures !Turn(a, before, stage, p).aborted
  {
    hide Done, BillStage, Result, Ended;
    EndedGoesOn(p, stage, Result(a, stage));
  }

  lemma {:induction false} NeverAborted(a: Attempt, run: Run, n: nat)
    requires n <= |STAGES| && a.cancelAt.None?
    ensures !Turns(a, run.steps, STAGES[..n], Start(run)).aborted
  {
    hide Turn;
    if n > 0 {
      assert STAGES[..n][..n - 1] == STAGES[..n - 1];
      NeverAborted(a, run, n - 1);
      TurnGoesOn(a, run.steps, STAGES[n - 1], Turns(a, run.steps, STAGES[..n - 1], Start(run)));
    }
  }

  lemma {:induction false} JobStays(job: nat, events: seq<Event>)
    ensures After(Fresh(job), events).job == job
  {
    if events != [] { JobStays(job, events[..|events| - 1]); }
  }
}
