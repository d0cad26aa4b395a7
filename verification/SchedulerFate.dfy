/** Which failed pipelines can still be re-opened by what may happen next. */
module SchedulerFate {
  import opened Tokens
  import opened Scheduler
  import opened SchedulerRuns
  import opened SchedulerTheorems
  import opened SchedulerOutcomes
  import opened SchedulerProgress
  import CI = CIConfig

  // ----- How a job's status moves -----

  /** A start and a report write the job's status, a release may; nothing else touches it. */
  predicate Moves(step: Step, j: nat, before: JobStatus, after: JobStatus) {
    if step == Start(j) then before == Pending && after == Running
    else if step.Report? && step.job == j then after == step.state && (before == Running || before == after)
    else after == before || (before == Created && after == Pending && (step.Finish? || step.Launch?))
  }

  lemma LaunchMoves(y: System, project: nat, config: CI.Config, j: nat)
    requires Inv(y) && Enabled(y, Launch(project, config)) && j in y.srv.jobs
    ensures var t := CreatePipeline(y.srv, project, config);
            j in t.jobs && Moves(Launch(project, config), j, y.srv.jobs[j].status, t.jobs[j].status)
  {
    hide JobsOk, PipelinesOk, Queued, Reported, EnqueueStage, AddPipeline, Block, FreshJob;
    AddPipelineFrame(y.srv, project, config);
    EnqueueFrame(AddPipeline(y.srv, project, config), y.srv.nextID);
  }

  lemma FinishMoves(y: System, i: nat, state: JobStatus, j: nat)
    requires Enabled(y, Finish(i, state)) && j in y.srv.jobs
    ensures var t := RollUp(y.srv, i, state);
            j in t.jobs && Moves(Finish(i, state), j, y.srv.jobs[j].status, t.jobs[j].status)
  {
    hide EnqueueStage, StageDone;
    var pid := y.srv.jobs[i].pipeline;
    if pid in y.srv.pipelines {
      EnqueueFrame(Advanced(y.srv, pid), pid);
    }
  }

  lemma ArtifactMoves(y: System, step: Step, j: nat)
    requires Enabled(y, step) && (step.StoreArtifact? || step.RecordArtifact?) && j in y.srv.jobs
    ensures j in Apply(y, step).srv.jobs && Apply(y, step).srv.jobs[j].status == y.srv.jobs[j].status
  {
    hide Apply;
    ArtifactFrame(y, step);
  }

  lemma StatusMoves(y: System, step: Step, j: nat)
    requires Inv(y) && Enabled(y, step) && j in y.srv.jobs
    ensures j in Apply(y, step).srv.jobs
    ensures Moves(step, j, y.srv.jobs[j].status, Apply(y, step).srv.jobs[j].status)
  {
    hide IdsUnique, JobsOk, PipelinesOk, Reported, RollUp, CreatePipeline, NameArtifact, SizeArtifact, Moves;
    match step
    case Launch(project, config) => LaunchMoves(y, project, config, j);
    case Refresh(project) => RefreshKeeps(y, project); Unmoved(step, j, y.srv.jobs[j].status);
    case Finish(i, state) => FinishMoves(y, i, state, j);
    case StoreArtifact(_, _, _) => ArtifactMoves(y, step, j); Unmoved(step, j, y.srv.jobs[j].status);
    case RecordArtifact(_) => ArtifactMoves(y, step, j); Unmoved(step, j, y.srv.jobs[j].status);
    case Start(i) => WrittenMoves(y, step, i, Running, j);
    case Report(i, state) => WrittenMoves(y, step, i, state, j);
    case _ => Unmoved(step, j, y.srv.jobs[j].status);
  }

  lemma Unmoved(step: Step, j: nat, status: JobStatus)
    requires !step.Start? && !step.Report?
    ensures Moves(step, j, status, status)
  {
  }

  lemma WrittenMoves(y: System, step: Step, i: nat, status: JobStatus, j: nat)
    requires Inv(y) && Enabled(y, step) && j in y.srv.jobs
    requires (step == Start(i) && status == Running) || step == Report(i, status)
    ensures Moves(step, j, y.srv.jobs[j].status, SetStatus(y.srv, i, status).jobs[j].status)
  {
    hide IdsUnique, JobsOk, PipelinesOk, Reported;
  }

  // ----- Re-opening -----

  /** A released job of the pipeline that has not failed. */
  ghost predicate Survivor(s: State, pid: nat, j: nat) {
    && pid in s.pipelines && j in s.pipelines[pid].jobIDs && j in s.jobs
    && s.jobs[j].status != Created && s.jobs[j].status != Failed
  }

  ghost predicate Reopenable(s: State, pid: nat) {
    (exists i :: Unreleased(s, pid, i)) && (exists j :: Survivor(s, pid, j))
  }

  // ----- If not, the failure is permanent -----

  /** A roll-up into a failed pipeline without survivors reports a failure, and changes nothing. */
  lemma FinishWithoutSurvivor(y: System, step: Step, pid: nat)
    requires Inv(y) && Enabled(y, step) && IsFailed(y.srv, pid) && forall j :: !Survivor(y.srv, pid, j)
    ensures FinishesIn(y.srv, step, pid) ==> Apply(y, step).srv == y.srv
  {
    hide IdsUnique, Queued, PipelineOk, Placed;
    if FinishesIn(y.srv, step, pid) {
      assert (step.job, step.state) in y.reports;
      assert JobOk(y.srv.pipelines, step.job, y.srv.jobs[step.job]);
      assert !Survivor(y.srv, pid, step.job);
    }
  }

  lemma NoSurvivorStep(y: System, step: Step, pid: nat)
    requires Inv(y) && Enabled(y, step) && IsFailed(y.srv, pid) && forall j :: !Survivor(y.srv, pid, j)
    ensures IsFailed(Apply(y, step).srv, pid) && forall j :: !Survivor(Apply(y, step).srv, pid, j)
  {
    hide Inv, Enabled, Apply;
    var t := Apply(y, step).srv;
    StepEvolves(y, step, pid);
    FinishWithoutSurvivor(y, step, pid);
    forall j | j in y.srv.pipelines[pid].jobIDs
      ensures !Survivor(t, pid, j)
    {
      assert !Survivor(y.srv, pid, j);
      StatusMoves(y, step, j);
    }
  }

  lemma AllReleasedStep(y: System, step: Step, pid: nat)
    requires Inv(y) && Enabled(y, step) && IsFailed(y.srv, pid) && AllReleased(y.srv, pid)
    ensures IsFailed(Apply(y, step).srv, pid) && AllReleased(Apply(y, step).srv, pid)
  {
    hide Inv, Enabled, Apply;
    StepEvolves(y, step, pid);
    OwnFinishFails(y, step, pid);
    assert forall j :: Unreleased(Apply(y, step).srv, pid, j) ==> Unreleased(y.srv, pid, j);
  }

  lemma {:induction false} FailureHolds(y: System, steps: seq<Step>, pid: nat)
    requires Inv(y) && IsRun(y, steps) && IsFailed(y.srv, pid) && !Reopenable(y.srv, pid)
    ensures IsFailed(After(y, steps).srv, pid)
    decreases |steps|
  {
    hide Inv, Enabled, Apply, IsFailed, Unreleased, Survivor;
    if steps != [] {
      var z := Apply(y, steps[0]);
      StepKeeps(y, steps[0]);
      if AllReleased(y.srv, pid) {
        AllReleasedStep(y, steps[0], pid);
      } else {
        NoSurvivorStep(y, steps[0], pid);
      }
      FailureHolds(z, steps[1..], pid);
    }
  }

  // ----- If so, letting the work in flight succeed re-opens it -----

  lemma ReleaseLeavesFailed(y: System, step: Step, pid: nat)
    requires Inv(y) && Enabled(y, step) && IsFailed(y.srv, pid) && IsFailed(Apply(y, step).srv, pid)
    requires exists i :: Unreleased(y.srv, pid, i)
    ensures FinishesIn(y.srv, step, pid) ==> Apply(y, step).srv == y.srv
  {
    hide IdsUnique, Queued, Reported, Placed, EnqueueStage, Positioned, Awake, JobOk, PipelineOk, StageDone, Unreleased;
    if FinishesIn(y.srv, step, pid) {
      assert PipelineOk(y.srv.jobs, y.reports, pid, y.srv.pipelines[pid]);
      if StageDone(y.srv, pid) {
        AdvanceFate(y.srv, y.reports, pid);
      }
    }
  }

  lemma StillReopenable(y: System, step: Step, pid: nat)
    requires Inv(y) && Enabled(y, step) && IsFailed(y.srv, pid) && IsFailed(Apply(y, step).srv, pid)
    requires Reopenable(y.srv, pid) && (step.Report? ==> step.state == Success)
    ensures Reopenable(Apply(y, step).srv, pid)
  {
    hide Inv, Enabled, Apply, StageIndex;
    var t := Apply(y, step).srv;
    StepEvolves(y, step, pid);
    ReleaseLeavesFailed(y, step, pid);
    var i :| Unreleased(y.srv, pid, i);
    assert Unreleased(t, pid, i);
    var j :| Survivor(y.srv, pid, j);
    StatusMoves(y, step, j);
    assert Survivor(t, pid, j);
  }

  /** With nothing in flight, the stage a success report checks is done. */
  lemma QuietStageDone(y: System, pid: nat)
    requires Reachable(y) && Quiescent(y) && pid in y.srv.pipelines
    ensures Listed(y.srv, pid) && y.srv.pipelines[pid].stages != [] && StageDone(y.srv, pid)
  {
    hide Reachable;
    PipelineFacts(y, pid);
    var p := y.srv.pipelines[pid];
    forall j | j in p.jobIDs && y.srv.jobs[j].spec.stage == CheckedStage(p)
      ensures y.srv.jobs[j].status.Terminal()
    {
      JobFacts(y, j);
    }
  }

  lemma QuietSurvivor(y: System, pid: nat, j: nat)
    requires Reachable(y) && Quiescent(y) && Survivor(y.srv, pid, j)
    ensures y.srv.jobs[j].status == Success && y.srv.jobs[j].pipeline == pid
  {
    hide Reachable;
    PipelineFacts(y, pid);
    JobFacts(y, j);
  }

  lemma ReportAgain(y: System, j: nat)
    requires Reachable(y) && j in y.srv.jobs && y.srv.jobs[j].status == Success && y.reports == multiset{}
    ensures Enabled(y, Report(j, Success))
    ensures var z := Apply(y, Report(j, Success));
            z.srv == y.srv && (j, Success) in z.reports && Reachable(z)
  {
    hide Reachable;
    ReachStep(y, Report(j, Success));
    assert y.srv.jobs[j := y.srv.jobs[j].(status := Success)] == y.srv.jobs;
  }

  lemma StepFirst(y: System, step: Step, rest: seq<Step>)
    requires Enabled(y, step) && IsRun(Apply(y, step), rest)
    ensures IsRun(y, [step] + rest) && After(y, [step] + rest) == After(Apply(y, step), rest)
  {
    hide Enabled, Apply;
    assert ([step] + rest)[1..] == rest;
  }

  lemma TwoSteps(y: System, a: Step, b: Step)
    requires Enabled(y, a) && Enabled(Apply(y, a), b)
    ensures IsRun(y, [a, b]) && After(y, [a, b]) == Apply(Apply(y, a), b)
  {
    hide Enabled, Apply;
    StepFirst(Apply(y, a), b, []);
    StepFirst(y, a, [b] + []);
    assert [a] + ([b] + []) == [a, b];
  }

  /** At rest, one more report of a job that succeeded re-opens the pipeline. */
  lemma DuplicateReopens(y: System, pid: nat) returns (steps: seq<Step>)
    requires Reachable(y) && Quiescent(y) && IsFailed(y.srv, pid) && Reopenable(y.srv, pid)
    ensures IsRun(y, steps) && !IsFailed(After(y, steps).srv, pid)
  {
    hide Reachable, StageDone, Unreleased, RollUp;
    var j :| Survivor(y.srv, pid, j);
    QuietSurvivor(y, pid, j);
    QuietStageDone(y, pid);
    ReportAgain(y, j);
    var z := Apply(y, Report(j, Success));
    SuccessReportFate(z, j);
    assert Enabled(z, Finish(j, Success)) && !IsFailed(Apply(z, Finish(j, Success)).srv, pid);
    TwoSteps(y, Report(j, Success), Finish(j, Success));
    steps := [Report(j, Success), Finish(j, Success)];
  }

  lemma RunnersStay(y: System, step: Step)
    requires Enabled(y, step) && Progress(y, step)
    ensures Apply(y, step).srv.runners == y.srv.runners
  {
    hide EnqueueStage, StageDone;
    if step.Finish? && y.srv.jobs[step.job].pipeline in y.srv.pipelines {
      EnqueueFrame(Advanced(y.srv, y.srv.jobs[step.job].pipeline), y.srv.jobs[step.job].pipeline);
    }
  }

  /** Let everything in flight succeed; if that has not re-opened the pipeline, report a success again. */
  lemma {:induction false} LetSucceed(y: System, pid: nat, token: string) returns (steps: seq<Step>)
    requires Reachable(y) && IsFailed(y.srv, pid) && Reopenable(y.srv, pid) && token in y.srv.runners
    ensures IsRun(y, steps) && !IsFailed(After(y, steps).srv, pid)
    decreases Measure(y)
  {
    hide Inv, Reachable, Enabled, Apply, Progress, Measure, Quiescent, IsFailed, Reopenable;
    if Quiescent(y) {
      steps := DuplicateReopens(y, pid);
    } else {
      var step := ProgressPossible(y, token);
      ReachableInv(y);
      ReachStep(y, step);
      RunnersStay(y, step);
      ProgressShrinks(y, step);
      var rest := [];
      if IsFailed(Apply(y, step).srv, pid) {
        StillReopenable(y, step, pid);
        rest := LetSucceed(Apply(y, step), pid, token);
      }
      StepFirst(y, step, rest);
      steps := [step] + rest;
    }
  }

  lemma ProgressShrinks(y: System, step: Step)
    requires Inv(y) && Enabled(y, step) && Progress(y, step)
    ensures Measure(Apply(y, step)) < Measure(y)
  {
    hide Inv, Measure, Apply;
    StepMeasure(y, step);
  }

  lemma RegisterRunner(y: System)
    requires Reachable(y)
    ensures Enabled(y, AddRunner) && Reachable(Apply(y, AddRunner))
    ensures var z := Apply(y, AddRunner);
            z.srv.pipelines == y.srv.pipelines && z.srv.jobs == y.srv.jobs && z.srv.runners != map[]
  {
    hide Reachable, NewToken;
    ReachStep(y, AddRunner);
    assert NewToken("glrt", y.srv.nextID) in Apply(y, AddRunner).srv.runners;
  }

  /**
   * The fate of a failed pipeline over runs: in any reachable state, some continuation takes it out
   * of failed exactly if a listed job is unreleased and some released job of it has not failed.
   */
  lemma ReopenIff(y: System, pid: nat)
    requires Reachable(y) && pid in y.srv.pipelines && y.srv.pipelines[pid].status == PlFailed
    ensures (exists steps :: IsRun(y, steps) && !IsFailed(After(y, steps).srv, pid)) <==> Reopenable(y.srv, pid)
  {
    hide Inv, Reachable, IsRun, After, Reopenable;
    ReachableInv(y);
    if Reopenable(y.srv, pid) {
      RegisterRunner(y);
      var z := Apply(y, AddRunner);
      var token :| token in z.srv.runners;
      SameFate(y.srv, z.srv, pid);
      var rest := LetSucceed(z, pid, token);
      StepFirst(y, AddRunner, rest);
      assert IsRun(y, [AddRunner] + rest);
    } else {
      forall steps | IsRun(y, steps)
        ensures IsFailed(After(y, steps).srv, pid)
      {
        FailureHolds(y, steps, pid);
      }
    }
  }

  lemma SameFate(s: State, t: State, pid: nat)
    requires t.pipelines == s.pipelines && t.jobs == s.jobs && Reopenable(s, pid)
    ensures Reopenable(t, pid)
  {
    var i :| Unreleased(s, pid, i);
    var j :| Survivor(s, pid, j);
    assert Unreleased(t, pid, i) && Survivor(t, pid, j);
  }
}
