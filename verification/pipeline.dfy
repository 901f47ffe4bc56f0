/**
 The resumable sync pipeline: nine stages, run by one job at a time, resumed from the stages already recorded as
 successful (src/modules/pipeline/pipeline.service.ts and pipeline.repository.ts).
 */
module Pipeline {
  import opened Wrappers

  datatype Stage =
    PlaidSync | LiabilitiesSync | BillDetect | BillMaterialize | OverdueSweep | Reconcile | BalanceRefresh | NetWorthSnapshot | BudgetCheck

  const STAGES: seq<Stage> :=
    [PlaidSync, LiabilitiesSync, BillDetect, BillMaterialize, OverdueSweep, Reconcile, BalanceRefresh, NetWorthSnapshot, BudgetCheck]

  datatype StepStatus = StepRunning | StepSuccess | StepFailed | StepSkipped

  datatype RunStatus = Running | Success | Partial | Failed

  type Steps = map<Stage, StepStatus>

  datatype Run = Run(job: nat, status: RunStatus, finished: bool, steps: Steps)

  /** The job row a guarded update joins with. */
  datatype JobRow = JobRow(id: nat, running: bool, token: nat)

  /** How a stage's port ends; a port that is not wired up fails and may be retried. */
  datatype PortResult = Succeeds | Fails(retryable: bool)

  /**
   One attempt of the job: its id and lease token, the number of cancellation checks it passes before its signal is
   aborted, what the ports do, and the job row at its two guarded updates.
   */
  datatype Attempt = Attempt(
    job: nat, token: nat, cancelAt: Option<nat>, ports: map<Stage, PortResult>, atReopen: JobRow, atFinish: JobRow)
  {
    predicate Cancelled(check: nat) { cancelAt.Some? && cancelAt.value <= check }

    predicate Owns(run: Run, row: JobRow) {
      run.job == job && row.id == job && row.running && row.token == token
    }
  }

  datatype End = Aborted | WrongJob | LeaseLost | Completed | CompletedForRetry

  /** Where an attempt stands between two stages. */
  datatype Progress = Progress(
    steps: Steps, checks: nat, syncFailed: bool, anyFailed: bool, retry: bool, ran: seq<Stage>, aborted: bool)

  predicate BillStage(stage: Stage) {
    stage == BillDetect || stage == BillMaterialize
  }

  predicate Done(steps: Steps, stage: Stage) {
    stage in steps && steps[stage] == StepSuccess
  }

  function Result(a: Attempt, stage: Stage): PortResult {
    if stage in a.ports then a.ports[stage] else Fails(true)
  }

  /** One turn of the loop; `before` are the steps the attempt found. */
  function Turn(a: Attempt, before: Steps, stage: Stage, p: Progress): Progress {
    if p.aborted || a.Cancelled(p.checks) then p.(aborted := true)
    else if Done(before, stage) then p.(checks := p.checks + 1)
    else
      var started := p.(steps := p.steps[stage := StepRunning]);
      if a.Cancelled(p.checks + 1) then started.(aborted := true)
      else if BillStage(stage) && p.syncFailed then
        started.(steps := started.steps[stage := StepSkipped], checks := p.checks + 2)
      else
        var called := started.(ran := if stage in a.ports then p.ran + [stage] else p.ran);
        if a.Cancelled(p.checks + 2) then called.(aborted := true) else Ended(called, stage, Result(a, stage))
  }

  /** A stage's outcome recorded. */
  function Ended(p: Progress, stage: Stage, result: PortResult): Progress {
    match result
    case Succeeds => p.(steps := p.steps[stage := StepSuccess], checks := p.checks + 3)
    case Fails(retryable) =>
      p.(steps := p.steps[stage := StepFailed], checks := p.checks + 3, anyFailed := true,
         syncFailed := p.syncFailed || stage == PlaidSync, retry := p.retry || (stage == PlaidSync && retryable))
  }

  function Turns(a: Attempt, before: Steps, stages: seq<Stage>, p: Progress): Progress {
    if stages == [] then p else Turn(a, before, stages[|stages| - 1], Turns(a, before, stages[..|stages| - 1], p))
  }

  function Verdict(p: Progress): RunStatus {
    if p.syncFailed then Failed else if p.anyFailed then Partial else Success
  }

  function Start(run: Run): Progress {
    Progress(run.steps, 2, false, false, false, [], false)
  }

  /** A whole attempt: the run it leaves, how it ended, and the ports it called, in order. */
  function Execute(run: Run, a: Attempt): (Run, End, seq<Stage>) {
    if a.Cancelled(0) then (run, Aborted, [])
    else if run.job != a.job then (run, WrongJob, [])
    else if a.Cancelled(1) then (run, Aborted, [])
    else if run.steps != map[] && !a.Owns(run, a.atReopen) then (run, LeaseLost, [])
    else
      var reopened := if run.steps != map[] then run.(status := Running, finished := false) else run;
      var p := Turns(a, run.steps, STAGES, Start(run));
      var left := reopened.(steps := p.steps);
      if p.aborted || a.Cancelled(p.checks) then (left, Aborted, p.ran)
      else if !a.Owns(run, a.atFinish) then (left, LeaseLost, p.ran)
      else (left.(status := Verdict(p), finished := true), if p.retry then CompletedForRetry else Completed, p.ran)
  }

  // ------------------------------------------------------------------ the loop

  class PipelineRepository {
    var run: Run

    constructor (job: nat)
      ensures run == Run(job, Running, false, map[])
    {
      run := Run(job, Running, false, map[]);
    }

    method StartStep(stage: Stage)
      modifies this
      ensures run == old(run).(steps := old(run).steps[stage := StepRunning])
    {
      run := run.(steps := run.steps[stage := StepRunning]);
    }

    method FinishStep(stage: Stage, status: StepStatus)
      modifies this
      ensures run == old(run).(steps := old(run).steps[stage := status])
    {
      run := run.(steps := run.steps[stage := status]);
    }

    method ReopenRunForJob(a: Attempt) returns (owned: bool)
      modifies this
      ensures owned == a.Owns(old(run), a.atReopen)
      ensures run == if owned then old(run).(status := Running, finished := false) else old(run)
    {
      owned := a.Owns(run, a.atReopen);
      if owned { run := run.(status := Running, finished := false); }
    }

    method FinishRunForJob(a: Attempt, status: RunStatus) returns (owned: bool)
      modifies this
      ensures owned == a.Owns(old(run), a.atFinish)
      ensures run == if owned then old(run).(status := status, finished := true) else old(run)
    {
      owned := a.Owns(run, a.atFinish);
      if owned { run := run.(status := status, finished := true); }
    }

    method FailRunForExpiredJob(job: nat) returns (failed: bool)
      modifies this
      ensures run == Expire(old(run), job)
      ensures failed <==> old(run).job == job && old(run).status == Running
    {
      failed := run.job == job && run.status == Running;
      if failed { run := run.(status := Failed, finished := true); }
    }
  }

  function Expire(run: Run, job: nat): Run {
    if run.job == job && run.status == Running then run.(status := Failed, finished := true) else run
  }

  /** One turn of the loop, on the run row and on the loop's variables. */
  method RunStage(repo: PipelineRepository, a: Attempt, existing: Steps, stage: Stage,
        p: Progress) returns (next: Progress)
    requires p.steps == repo.run.steps && !p.aborted
    modifies repo
    ensures next == Turn(a, existing, stage, p)
    ensures repo.run == old(repo.run).(steps := next.steps)
  {
    hide Ended, Result, BillStage, Done;
    next := p;
    if a.Cancelled(p.checks) { return next.(aborted := true); }
    if Done(existing, stage) { return next.(checks := p.checks + 1); }
    repo.StartStep(stage);
    next := next.(steps := repo.run.steps);
    if a.Cancelled(p.checks + 1) { return next.(aborted := true); }
    if BillStage(stage) && p.syncFailed {
      repo.FinishStep(stage, StepSkipped);
      return next.(steps := repo.run.steps, checks := p.checks + 2);
    }
    if stage in a.ports { next := next.(ran := p.ran + [stage]); }
    if a.Cancelled(p.checks + 2) { return next.(aborted := true); }
    next := RecordOutcome(repo, stage, Result(a, stage), next);
  }

  /** The try and catch around the port, after the last cancellation check. */
  method RecordOutcome(repo: PipelineRepository, stage: Stage, result: PortResult, p: Progress) returns (next: Progress)
    requires p.steps == repo.run.steps
    modifies repo
    ensures next == Ended(p, stage, result)
    ensures repo.run == old(repo.run).(steps := next.steps)
  {
    next := p;
    match result {
      case Succeeds =>
        repo.FinishStep(stage, StepSuccess);
      case Fails(retryable) =>
        next := next.(anyFailed := true);
        if stage == PlaidSync {
          next := next.(syncFailed := true, retry := p.retry || retryable);
        }
        repo.FinishStep(stage, StepFailed);
    }
    next := next.(steps := repo.run.steps, checks := p.checks + 3);
  }

  /** `executePipelineJob`. */
  method ExecutePipelineJob(repo: PipelineRepository, a: Attempt) returns (end: End, ran: seq<Stage>)
    modifies repo
    ensures (repo.run, end, ran) == Execute(old(repo.run), a)
  {
    hide Turn;
    if a.Cancelled(0) { return Aborted, []; }
    if repo.run.job != a.job { return WrongJob, []; }
    if a.Cancelled(1) { return Aborted, []; }
    var existing := repo.run.steps;
    if existing != map[] {
      var owned := repo.ReopenRunForJob(a);
      if !owned { return LeaseLost, []; }
    }
    ghost var reopened := repo.run;
    var p := Start(repo.run);
    for i := 0 to |STAGES|
      invariant p == Turns(a, existing, STAGES[..i], Start(reopened)) && !p.aborted
      invariant repo.run == reopened.(steps := p.steps)
    {
      assert STAGES[..i + 1][..i] == STAGES[..i];
      p := RunStage(repo, a, existing, STAGES[i], p);
      if p.aborted {
        StaysAborted(a, existing, STAGES, i + 1, Start(reopened));
        return Aborted, p.ran;
      }
    }
    assert STAGES[..|STAGES|] == STAGES;
    if a.Cancelled(p.checks) { return Aborted, p.ran; }
    var finished := repo.FinishRunForJob(a, Verdict(p));
    end := if !finished then LeaseLost else if p.retry then CompletedForRetry else Completed;
    ran := p.ran;
  }

  /** Nothing happens after a cancellation. */
  lemma {:induction false} StaysAborted(a: Attempt, before: Steps, stages: seq<Stage>, n: nat, p: Progress)
    requires n <= |stages| && Turns(a, before, stages[..n], p).aborted
    ensures Turns(a, before, stages, p) == Turns(a, before, stages[..n], p)
  {
    if n == |stages| {
      assert stages[..n] == stages;
    } else {
      assert stages[..|stages| - 1][..n] == stages[..n];
      StaysAborted(a, before, stages[..|stages| - 1], n, p);
    }
  }
}
