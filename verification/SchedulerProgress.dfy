/** Termination and total correctness of failure-free runs. */
module SchedulerProgress {
  import opened Scheduler
  import opened SchedulerRuns
  import opened SchedulerTheorems
  import CI = CIConfig

  // ----- The work left -----

  ghost predicate ListedJob(s: State, j: nat) {
    && j in s.jobs && s.jobs[j].pipeline in s.pipelines
    && StageIndex(s.pipelines[s.jobs[j].pipeline].stages, s.jobs[j].spec.stage) >= 0
  }

  /** Listed jobs whose stage has not been released. */
  ghost function Ahead(s: State): set<nat> {
    set j | j in s.jobs && s.jobs[j].status == Created && ListedJob(s, j)
  }

  ghost function InQueue(s: State): set<nat> {
    set j | j in s.queue
  }

  ghost function WithStatus(s: State, status: JobStatus): set<nat> {
    set j | j in s.jobs && s.jobs[j].status == status
  }

  /** Each job counts once for every phase still before it, each unrolled report once. */
  ghost function Work(ahead: set<nat>, queued: set<nat>, pending: set<nat>, running: set<nat>, reports: nat): nat {
    |ahead| + |ahead + queued| + |ahead + pending| + 2 * |ahead + pending + running| + reports
  }

  ghost function Measure(y: System): nat {
    Work(Ahead(y.srv), InQueue(y.srv), WithStatus(y.srv, Pending), WithStatus(y.srv, Running), |y.reports|)
  }

  /** A step that brings some job or report closer to its end. */
  ghost predicate Progress(y: System, step: Step) {
    match step
    case Claim(token) => token in y.srv.runners && y.srv.queue != []
    case Report(j, state) => j in y.srv.jobs && y.srv.jobs[j].status == Running && state.Terminal()
    case Start(_) => true
    case Finish(_, _) => true
    case _ => false
  }

  /** A final state reported again. */
  ghost predicate Duplicate(y: System, step: Step) {
    step.Report? && step.job in y.srv.jobs && y.srv.jobs[step.job].status.Terminal()
  }

  // ----- Each step against the measure -----

  lemma SubsetCard(a: set<nat>, b: set<nat>)
    requires a <= b
    ensures |a| <= |b| && (a != b ==> |a| < |b|)
  {
    assert b == a + (b - a);
  }

  lemma WorkClaimed(ahead: set<nat>, queued: set<nat>, pending: set<nat>, running: set<nat>, reports: nat, j: nat)
    requires j in queued && j !in ahead
    ensures Work(ahead, queued - {j}, pending, running, reports) < Work(ahead, queued, pending, running, reports)
  {
    SubsetCard(ahead + (queued - {j}), ahead + queued);
  }

  lemma WorkStarted(ahead: set<nat>, queued: set<nat>, pending: set<nat>, running: set<nat>, reports: nat, j: nat)
    requires j in pending && j !in ahead
    ensures Work(ahead, queued, pending - {j}, running + {j}, reports) < Work(ahead, queued, pending, running, reports)
  {
    SubsetCard(ahead + (pending - {j}), ahead + pending);
    assert ahead + (pending - {j}) + (running + {j}) == ahead + pending + running;
  }

  lemma WorkReported(ahead: set<nat>, queued: set<nat>, pending: set<nat>, running: set<nat>, reports: nat, j: nat)
    requires j in running && j !in ahead && j !in pending
    ensures Work(ahead, queued, pending, running - {j}, reports + 1) < Work(ahead, queued, pending, running, reports)
  {
    SubsetCard(ahead + pending + (running - {j}), ahead + pending + running);
  }

  lemma ClaimMeasure(y: System, token: string)
    requires Inv(y) && Progress(y, Claim(token))
    ensures Measure(Apply(y, Claim(token))) < Measure(y)
  {
    hide IdsUnique, JobsOk, PipelinesOk, Reported, StageIndex, Work;
    var z, j := Apply(y, Claim(token)), y.srv.queue[0];
    assert j in y.srv.queue;
    assert y.srv.queue == [j] + y.srv.queue[1..];
    ClaimKeepsQueue(y);
    HandedLeavesQueue(z);
    assert j in z.handed;
    assert Ahead(z.srv) == Ahead(y.srv);
    assert WithStatus(z.srv, Pending) == WithStatus(y.srv, Pending);
    assert WithStatus(z.srv, Running) == WithStatus(y.srv, Running);
    assert InQueue(z.srv) == InQueue(y.srv) - {j};
    WorkClaimed(Ahead(y.srv), InQueue(y.srv), WithStatus(y.srv, Pending), WithStatus(y.srv, Running), |y.reports|, j);
  }

  lemma StatusMeasure(y: System, j: nat, status: JobStatus, reports: multiset<(nat, JobStatus)>, claimed: set<nat>)
    requires Writable(y.srv.jobs, j, status)
    ensures var z := y.(srv := SetStatus(y.srv, j, status), reports := reports, claimed := claimed);
            && Ahead(z.srv) == Ahead(y.srv) && InQueue(z.srv) == InQueue(y.srv)
            && WithStatus(z.srv, Pending) == WithStatus(y.srv, Pending) - {j}
            && WithStatus(z.srv, Running) ==
               (if status == Running then WithStatus(y.srv, Running) + {j} else WithStatus(y.srv, Running) - {j})
  {
    hide StageIndex;
  }

  lemma StartMeasure(y: System, j: nat)
    requires Inv(y) && Enabled(y, Start(j))
    ensures Measure(Apply(y, Start(j))) < Measure(y)
  {
    hide IdsUnique, JobsOk, PipelinesOk, Reported, StageIndex, Work, Ahead, InQueue;
    StatusMeasure(y, j, Running, y.reports, y.claimed - {j});
    AheadIsCreated(y.srv);
    WorkStarted(Ahead(y.srv), InQueue(y.srv), WithStatus(y.srv, Pending), WithStatus(y.srv, Running), |y.reports|, j);
  }

  lemma AheadIsCreated(s: State)
    ensures forall j :: j in Ahead(s) ==> j in s.jobs && s.jobs[j].status == Created
  {
  }

  lemma ReportMeasure(y: System, j: nat, state: JobStatus)
    requires Inv(y) && Enabled(y, Report(j, state))
    ensures var z := Apply(y, Report(j, state));
            && (Progress(y, Report(j, state)) ==> Measure(z) < Measure(y))
            && Measure(z) <= Measure(y) + if Duplicate(y, Report(j, state)) then 1 else 0
  {
    hide IdsUnique, JobsOk, PipelinesOk, Reported, StageIndex, Queued, Work, Ahead, InQueue;
    var z := Apply(y, Report(j, state));
    var pending, running := WithStatus(y.srv, Pending), WithStatus(y.srv, Running);
    StatusMeasure(y, j, state, z.reports, y.claimed);
    AheadIsCreated(y.srv);
    assert pending - {j} == pending;
    if Progress(y, Report(j, state)) {
      WorkReported(Ahead(y.srv), InQueue(y.srv), pending, running, |y.reports|, j);
    } else if y.srv.jobs[j].status == Running {
      assert running + {j} == running;
    } else {
      assert running - {j} == running;
      WorkWithReport(Ahead(y.srv), InQueue(y.srv), pending, running, |y.reports|);
    }
  }

  lemma WorkWithReport(ahead: set<nat>, queued: set<nat>, pending: set<nat>, running: set<nat>, reports: nat)
    ensures Work(ahead, queued, pending, running, reports + 1) == Work(ahead, queued, pending, running, reports) + 1
  {
  }

  /** A release moves some waiting listed jobs of its pipeline to the queue, and nothing else. */
  lemma ReleaseMoves(s: State, pid: nat) returns (m: seq<nat>)
    requires Listed(s, pid)
    ensures var t, p := EnqueueStage(s, pid), s.pipelines[pid];
            && t.queue == s.queue + m && t.jobs == MarkPending(s.jobs, m)
            && t.pipelines.Keys == s.pipelines.Keys
            && (forall q :: q in s.pipelines ==> t.pipelines[q].stages == s.pipelines[q].stages)
            && forall j :: j in m ==>
                 j in p.jobIDs && s.jobs[j].status == Created && StageIndex(p.stages, s.jobs[j].spec.stage) >= 0
  {
    var p := s.pipelines[pid];
    var k := NextStage(p.jobIDs, s.jobs, p.stages, p.stageIdx);
    if k < |p.stages| {
      m := Matching(p.jobIDs, s.jobs, p.stages[k]);
      assert p.stages[k] in p.stages;
    } else {
      m := [];
      assert s.queue + [] == s.queue;
      assert MarkPending(s.jobs, []) == s.jobs;
    }
  }

  lemma ReleaseMeasure(s: State, pid: nat)
    requires Listed(s, pid) && forall j :: j in s.pipelines[pid].jobIDs ==> s.jobs[j].pipeline == pid
    ensures var t := EnqueueStage(s, pid);
            && Ahead(t) <= Ahead(s) && Ahead(t) + InQueue(t) == Ahead(s) + InQueue(s)
            && Ahead(t) + WithStatus(t, Pending) == Ahead(s) + WithStatus(s, Pending)
            && WithStatus(t, Running) == WithStatus(s, Running)
  {
    hide StageIndex, EnqueueStage;
    var t := EnqueueStage(s, pid);
    var m := ReleaseMoves(s, pid);
    var moved := set j | j in m;
    assert Ahead(t) == Ahead(s) - moved && moved <= Ahead(s);
    assert InQueue(t) == InQueue(s) + moved;
    assert WithStatus(t, Pending) == WithStatus(s, Pending) + moved;
  }

  lemma FinishMeasure(y: System, j: nat, state: JobStatus)
    requires Inv(y) && Enabled(y, Finish(j, state))
    ensures Measure(Apply(y, Finish(j, state))) < Measure(y)
  {
    hide IdsUnique, JobsOk, Reported, StageIndex, Queued, EnqueueStage, StageDone, Ahead;
    var s, z := y.srv, Apply(y, Finish(j, state));
    var pid := s.jobs[j].pipeline;
    assert |y.reports - multiset{(j, state)}| == |y.reports| - 1;
    assert Ahead(z.srv) <= Ahead(s) && Ahead(z.srv) + InQueue(z.srv) == Ahead(s) + InQueue(s)
      && Ahead(z.srv) + WithStatus(z.srv, Pending) == Ahead(s) + WithStatus(s, Pending)
      && WithStatus(z.srv, Running) == WithStatus(s, Running) by {
      RollUpMeasure(y, j, state);
    }
    SubsetCard(Ahead(z.srv), Ahead(s));
  }

  lemma RollUpMeasure(y: System, j: nat, state: JobStatus)
    requires Inv(y) && j in y.srv.jobs && Rollable(y.srv, j)
    ensures var s, t := y.srv, RollUp(y.srv, j, state);
            && Ahead(t) <= Ahead(s) && Ahead(t) + InQueue(t) == Ahead(s) + InQueue(s)
            && Ahead(t) + WithStatus(t, Pending) == Ahead(s) + WithStatus(s, Pending)
            && WithStatus(t, Running) == WithStatus(s, Running)
  {
    hide IdsUnique, JobOk, Reported, StageIndex, Queued, EnqueueStage, StageDone, Ahead, Positioned, Awake;
    var s := y.srv;
    var pid := s.jobs[j].pipeline;
    if state.Terminal() && pid in s.pipelines {
      assert PipelineOk(s.jobs, y.reports, pid, s.pipelines[pid]);
      PipelineMeasure(s, pid, s.pipelines[pid].(status := PlFailed));
      PipelineMeasure(s, pid, s.pipelines[pid].(stageIdx := s.pipelines[pid].stageIdx + 1));
      ReleaseMeasure(Advanced(s, pid), pid);
    }
  }

  lemma PipelineMeasure(s: State, pid: nat, p: Pipeline)
    requires pid in s.pipelines && p.stages == s.pipelines[pid].stages
    ensures Ahead(s.(pipelines := s.pipelines[pid := p])) == Ahead(s)
  {
    hide StageIndex;
  }

  /** Every step but a creation keeps the measure, except that a duplicate report adds one roll-up. */
  lemma StepMeasure(y: System, step: Step)
    requires Inv(y) && Enabled(y, step) && !step.Launch?
    ensures Measure(Apply(y, step)) + (if Progress(y, step) then 1 else 0)
            <= Measure(y) + (if Duplicate(y, step) then 1 else 0)
  {
    hide Inv, Measure, Queued, StageIndex;
    match step
    case Claim(token) =>
      if Progress(y, step) {
        ClaimMeasure(y, token);
      } else {
        IdleClaim(y, token);
      }
    case Start(j) => StartMeasure(y, j);
    case Report(j, state) => ReportMeasure(y, j, state);
    case Finish(j, state) => FinishMeasure(y, j, state);
    case Refresh(project) => RefreshKeeps(y, project);
    case StoreArtifact(_, _, _) => ArtifactMeasure(y, step);
    case RecordArtifact(_) => ArtifactMeasure(y, step);
    case _ => OtherMeasure(y, step);
  }

  lemma ArtifactMeasure(y: System, step: Step)
    requires Inv(y) && Enabled(y, step) && (step.StoreArtifact? || step.RecordArtifact?)
    ensures Measure(Apply(y, step)) == Measure(y)
  {
    hide StageIndex, Apply, IdsUnique, JobsOk, PipelinesOk, Reported, Queued, Work;
    var z := Apply(y, step);
    ArtifactFrame(y, step);
    assert Ahead(z.srv) == Ahead(y.srv) && InQueue(z.srv) == InQueue(y.srv);
    assert WithStatus(z.srv, Pending) == WithStatus(y.srv, Pending);
    assert WithStatus(z.srv, Running) == WithStatus(y.srv, Running);
  }

  lemma IdleClaim(y: System, token: string)
    requires !Progress(y, Claim(token))
    ensures Apply(y, Claim(token)) == y
  {
  }

  lemma OtherMeasure(y: System, step: Step)
    requires step.AddProject? || step.AddRunner? || step.RemoveRunner?
    ensures Measure(Apply(y, step)) == Measure(y)
  {
    hide StageIndex;
    var z := Apply(y, step);
    assert Ahead(z.srv) == Ahead(y.srv) && InQueue(z.srv) == InQueue(y.srv);
  }

  // ----- Whole runs -----

  ghost function CountProgress(y: System, steps: seq<Step>): nat
    requires IsRun(y, steps)
    decreases |steps|
  {
    if steps == [] then 0
    else (if Progress(y, steps[0]) then 1 else 0) + CountProgress(Apply(y, steps[0]), steps[1..])
  }

  ghost function CountDuplicates(y: System, steps: seq<Step>): nat
    requires IsRun(y, steps)
    decreases |steps|
  {
    if steps == [] then 0
    else (if Duplicate(y, steps[0]) then 1 else 0) + CountDuplicates(Apply(y, steps[0]), steps[1..])
  }

  ghost predicate NoLaunch(steps: seq<Step>) {
    forall step :: step in steps ==> !step.Launch?
  }

  lemma {:induction false} ProgressBoundedFrom(y: System, steps: seq<Step>)
    requires Inv(y) && IsRun(y, steps) && NoLaunch(steps)
    ensures Measure(After(y, steps)) + CountProgress(y, steps) <= Measure(y) + CountDuplicates(y, steps)
    decreases |steps|
  {
    hide Inv, Measure, Enabled, Apply, Progress, Duplicate;
    if steps != [] {
      StepMeasure(y, steps[0]);
      StepKeeps(y, steps[0]);
      ProgressBoundedFrom(Apply(y, steps[0]), steps[1..]);
    }
  }

  /** Without new pipelines, progress is bounded by the work at the start plus the duplicate reports. */
  lemma ProgressBounded(y: System, steps: seq<Step>)
    requires Reachable(y) && IsRun(y, steps) && NoLaunch(steps)
    ensures Measure(After(y, steps)) + CountProgress(y, steps) <= Measure(y) + CountDuplicates(y, steps)
  {
    hide Inv, Reachable, IsRun, After, Measure, CountProgress, CountDuplicates;
    ReachableInv(y);
    ProgressBoundedFrom(y, steps);
  }

  /** Nothing queued, claimed or running, and every report rolled up. */
  ghost predicate Quiescent(y: System) {
    && y.srv.queue == [] && y.claimed == {} && y.reports == multiset{}
    && forall j :: j in y.srv.jobs ==> y.srv.jobs[j].status != Running
  }

  /** While there is work in flight and a runner to take it, some progress step is possible. */
  lemma ProgressPossible(y: System, token: string) returns (step: Step)
    requires Reachable(y) && token in y.srv.runners && !Quiescent(y)
    ensures Enabled(y, step) && Progress(y, step) && (step.Report? ==> step.state == Success)
  {
    hide Reachable;
    if y.srv.queue != [] {
      step := Claim(token);
    } else if y.claimed != {} {
      var j :| j in y.claimed;
      step := Start(j);
    } else if j :| j in y.srv.jobs && y.srv.jobs[j].status == Running {
      step := Report(j, Success);
    } else {
      var r :| r in y.reports;
      ReportRollable(y, r);
      step := Finish(r.0, r.1);
    }
  }

  lemma ReportRollable(y: System, r: (nat, JobStatus))
    requires Reachable(y) && r in y.reports
    ensures Rollable(y.srv, r.0)
  {
    EverythingResolves(y);
  }

  // ----- Failure-free runs -----

  ghost predicate FailureFree(steps: seq<Step>) {
    forall step :: step in steps && step.Report? ==> step.state != Failed
  }

  ghost predicate CleanState(s: State) {
    && (forall j :: j in s.jobs ==> s.jobs[j].status != Failed)
    && (forall pid :: pid in s.pipelines ==> s.pipelines[pid].status != PlFailed)
  }

  ghost predicate Clean(y: System) {
    CleanState(y.srv)
  }

  lemma EnqueueClean(s: State, pid: nat)
    requires Listed(s, pid) && CleanState(s)
    ensures CleanState(EnqueueStage(s, pid))
  {
  }

  lemma RollUpClean(s: State, j: nat, state: JobStatus)
    requires Rollable(s, j) && CleanState(s) && state != Failed
    ensures CleanState(RollUp(s, j, state))
  {
    hide EnqueueStage, StageDone;
    var pid := s.jobs[j].pipeline;
    if pid in s.pipelines {
      EnqueueClean(Advanced(s, pid), pid);
    }
  }

  lemma LaunchClean(s: State, project: nat, config: CI.Config)
    requires CleanState(s) && config.stages != []
    ensures CleanState(CreatePipeline(s, project, config))
  {
    hide EnqueueStage, AddPipeline;
    AddPipelineFrame(s, project, config);
    AddPipelineOwns(s, project, config);
    EnqueueClean(AddPipeline(s, project, config), s.nextID);
  }

  lemma StatusClean(s: State, j: nat, status: JobStatus)
    requires CleanState(s) && status != Failed
    ensures CleanState(SetStatus(s, j, status))
  {
  }

  lemma SameClean(s: State, t: State)
    requires CleanState(s) && t.jobs == s.jobs && t.pipelines == s.pipelines
    ensures CleanState(t)
  {
  }

  lemma ArtifactClean(y: System, step: Step)
    requires Clean(y) && Enabled(y, step) && (step.StoreArtifact? || step.RecordArtifact?)
    ensures Clean(Apply(y, step))
  {
    hide Apply;
    ArtifactFrame(y, step);
  }

  lemma StepClean(y: System, step: Step)
    requires Inv(y) && Clean(y) && Enabled(y, step) && (step.Report? ==> step.state != Failed)
    ensures Clean(Apply(y, step))
  {
    hide IdsUnique, JobsOk, PipelinesOk, Queued, StageIndex, RollUp, CreatePipeline, NameArtifact, SizeArtifact;
    hide SetStatus, CleanState;
    match step
    case StoreArtifact(_, _, _) => ArtifactClean(y, step);
    case RecordArtifact(_) => ArtifactClean(y, step);
    case Finish(j, state) => FinishReports(y, j, state); RollUpClean(y.srv, j, state);
    case Launch(project, config) => LaunchClean(y.srv, project, config);
    case Start(j) => StatusClean(y.srv, j, Running);
    case Report(j, state) => StatusClean(y.srv, j, state);
    case Refresh(project) => RefreshKeeps(y, project);
    case _ => SameClean(y.srv, Apply(y, step).srv);
  }

  lemma FinishReports(y: System, j: nat, state: JobStatus)
    requires Reported(y.srv.jobs, y.reports) && CleanState(y.srv) && (j, state) in y.reports
    ensures state != Failed
  {
  }

  lemma {:induction false} RunClean(y: System, steps: seq<Step>)
    requires Inv(y) && Clean(y) && IsRun(y, steps) && FailureFree(steps)
    ensures Clean(After(y, steps))
    decreases |steps|
  {
    hide Inv, Clean, Enabled, Apply;
    if steps != [] {
      StepClean(y, steps[0]);
      StepKeeps(y, steps[0]);
      RunClean(Apply(y, steps[0]), steps[1..]);
    }
  }

  lemma CleanPipelineDone(y: System, pid: nat)
    requires Reachable(y) && Clean(y) && Quiescent(y) && pid in y.srv.pipelines
    ensures y.srv.pipelines[pid].status == PlSuccess
  {
    hide Reachable;
    PipelineFacts(y, pid);
    if y.srv.pipelines[pid].status == PlRunning {
      NoLostWakeUp(y, pid);
    }
  }

  /**
   * Total correctness: a failure-free run that has come to rest leaves every pipeline in success,
   * every listed job successful and handed out exactly once, every unlisted job untouched.
   */
  lemma FailureFreeSuccess(steps: seq<Step>)
    requires IsRun(START, steps) && FailureFree(steps) && Quiescent(After(START, steps))
    ensures var y := After(START, steps);
            && (forall pid :: pid in y.srv.pipelines ==> y.srv.pipelines[pid].status == PlSuccess)
            && (forall j :: j in y.srv.jobs && ListedJob(y.srv, j) ==> y.srv.jobs[j].status == Success && j in y.handed)
            && (forall j :: j in y.srv.jobs && !ListedJob(y.srv, j) ==>
                  y.srv.jobs[j].status == Created && j !in y.handed)
            && Distinct(y.handed)
  {
    hide IsRun, After, Inv;
    StartsWell();
    var y := After(START, steps);
    assert Reachable(y);
    assert Clean(START);
    RunClean(START, steps);
    ExactlyOnceFifo(y);
    forall pid | pid in y.srv.pipelines
      ensures y.srv.pipelines[pid].status == PlSuccess
    {
      CleanPipelineDone(y, pid);
    }
    forall j | j in y.srv.jobs
      ensures y.srv.jobs[j].status == if ListedJob(y.srv, j) then Success else Created
    {
      CleanJobDone(y, j);
    }
    assert y.enqueued == y.handed;
  }

  /**
   * A failure-free run that has gone as far as it can, with a runner to serve it, is at rest, so all
   * of its pipelines have succeeded. By ProgressBounded every run gets there unless reports are
   * duplicated forever.
   */
  lemma MaximalRunSucceeds(steps: seq<Step>, token: string)
    requires IsRun(START, steps) && FailureFree(steps) && token in After(START, steps).srv.runners
    requires forall step :: Enabled(After(START, steps), step) ==> !Progress(After(START, steps), step)
    ensures forall pid :: pid in After(START, steps).srv.pipelines ==>
              After(START, steps).srv.pipelines[pid].status == PlSuccess
  {
    hide IsRun, After, Enabled, Progress;
    var y := After(START, steps);
    assert Reachable(y);
    if !Quiescent(y) {
      var step := ProgressPossible(y, token);
    }
    FailureFreeSuccess(steps);
  }

  lemma CleanJobDone(y: System, j: nat)
    requires Reachable(y) && Clean(y) && Quiescent(y) && j in y.srv.jobs
    ensures y.srv.jobs[j].status == if ListedJob(y.srv, j) then Success else Created
  {
    hide Reachable;
    JobFacts(y, j);
    var pid := y.srv.jobs[j].pipeline;
    CleanPipelineDone(y, pid);
    PipelineFacts(y, pid);
  }
}
