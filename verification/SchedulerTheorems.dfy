/** What the invariant of SchedulerRuns means for pipelines, jobs and runners. */
module SchedulerTheorems {
  import opened Tokens
  import opened Scheduler
  import opened SchedulerRuns
  import CI = CIConfig

  // ----- Safety over every run -----

  ghost predicate Reachable(y: System) {
    exists steps :: IsRun(START, steps) && After(START, steps) == y
  }

  lemma ReachableInv(y: System)
    requires Reachable(y)
    ensures Inv(y)
  {
    hide Inv;
    var steps :| IsRun(START, steps) && After(START, steps) == y;
    StartsWell();
    RunKeeps(START, steps);
  }

  lemma {:induction false} RunAppend(y: System, steps: seq<Step>, last: Step)
    requires IsRun(y, steps) && Enabled(After(y, steps), last)
    ensures IsRun(y, steps + [last]) && After(y, steps + [last]) == Apply(After(y, steps), last)
    decreases |steps|
  {
    hide Enabled, Apply;
    if steps == [] {
      assert [last][1..] == [];
      assert steps + [last] == [last];
    } else {
      assert (steps + [last])[1..] == steps[1..] + [last];
      RunAppend(Apply(y, steps[0]), steps[1..], last);
    }
  }

  lemma ReachStep(y: System, step: Step)
    requires Reachable(y) && Enabled(y, step)
    ensures Reachable(Apply(y, step))
  {
    hide Enabled, Apply;
    var steps :| IsRun(START, steps) && After(START, steps) == y;
    RunAppend(START, steps, step);
  }

  lemma PipelineFacts(y: System, pid: nat)
    requires Reachable(y) && pid in y.srv.pipelines
    ensures PipelineOk(y.srv.jobs, y.reports, pid, y.srv.pipelines[pid])
  {
    hide IdsUnique, PipelineOk, JobOk, Queued, Reported;
    ReachableInv(y);
  }

  lemma JobFacts(y: System, j: nat)
    requires Reachable(y) && j in y.srv.jobs
    ensures JobOk(y.srv.pipelines, j, y.srv.jobs[j])
    ensures y.srv.jobs[j].status == Pending ==> j in y.srv.queue || j in y.claimed
  {
    hide IdsUnique, PipelineOk, JobOk, Reported;
    ReachableInv(y);
  }

  /**
   * No lost wake-up: a running pipeline has a queued, just claimed or running job in its current
   * stage, or a status report still to be rolled up.
   */
  lemma NoLostWakeUp(y: System, pid: nat)
    requires Reachable(y) && pid in y.srv.pipelines && y.srv.pipelines[pid].status == PlRunning
    ensures var p := y.srv.pipelines[pid];
            && p.stageIdx < |p.stages|
            && ((exists j :: j in p.jobIDs && j in y.srv.jobs && y.srv.jobs[j].spec.stage == p.stages[p.stageIdx] &&
                            (j in y.srv.queue || j in y.claimed || y.srv.jobs[j].status == Running))
                || (exists r :: r in y.reports && r.0 in p.jobIDs))
  {
    hide Reachable;
    PipelineFacts(y, pid);
    var p := y.srv.pipelines[pid];
    if j :| j in p.jobIDs && Current(p, y.srv.jobs[j]) && y.srv.jobs[j].status.Live() {
      JobFacts(y, j);
      assert j in p.jobIDs && j in y.srv.jobs && y.srv.jobs[j].spec.stage == p.stages[p.stageIdx];
    }
  }

  /** Stage barrier: once a job has left created, every job of an earlier stage is finished. */
  lemma StageBarrier(y: System, early: nat, late: nat)
    requires Reachable(y) && early in y.srv.jobs && late in y.srv.jobs
    requires y.srv.jobs[early].pipeline == y.srv.jobs[late].pipeline
    requires y.srv.jobs[late].pipeline in y.srv.pipelines
    requires var stages := y.srv.pipelines[y.srv.jobs[late].pipeline].stages;
             0 <= StageIndex(stages, y.srv.jobs[early].spec.stage) < StageIndex(stages, y.srv.jobs[late].spec.stage)
    requires y.srv.jobs[late].status != Created
    ensures y.srv.jobs[early].status.Terminal()
  {
    hide Reachable;
    JobFacts(y, early);
    JobFacts(y, late);
  }

  /**
   * Exactly once, in order: the jobs handed out are a prefix of the jobs enqueued, no id occurs
   * twice, and what is left of the queue is pending.
   */
  lemma ExactlyOnceFifo(y: System)
    requires Reachable(y)
    ensures y.enqueued == y.handed + y.srv.queue
    ensures Distinct(y.enqueued) && Distinct(y.handed) && Distinct(y.srv.queue)
    ensures forall j :: j in y.srv.queue ==> j in y.srv.jobs && y.srv.jobs[j].status == Pending
    ensures forall j :: j in y.enqueued <==> j in y.srv.jobs && y.srv.jobs[j].status != Created
  {
    ReachableInv(y);
    hide JobOk, PipelineOk, IdsUnique, Reported;
    assert forall i :: 0 <= i < |y.handed| ==> y.handed[i] == y.enqueued[i];
    assert forall i :: 0 <= i < |y.srv.queue| ==> y.srv.queue[i] == y.enqueued[|y.handed| + i];
  }

  /** The history of enqueued and handed-out jobs only ever grows at its end. */
  lemma {:induction false} HistoryGrows(y: System, steps: seq<Step>)
    requires IsRun(y, steps)
    ensures y.enqueued <= After(y, steps).enqueued && y.handed <= After(y, steps).handed
    decreases |steps|
  {
    if steps != [] {
      HistoryGrows(Apply(y, steps[0]), steps[1..]);
      StepHistory(y, steps[0]);
    }
  }

  lemma StepHistory(y: System, step: Step)
    requires Enabled(y, step)
    ensures y.enqueued <= Apply(y, step).enqueued && y.handed <= Apply(y, step).handed
  {
    hide RollUp, CreatePipeline, NewRunner, NewProject, DropRunner, SetStatus, SetPipelineStatus, Dequeue;
  }

  /** Ids name one thing, a token names one job, and a new runner never overwrites another. */
  lemma IdsNeverClash(y: System)
    requires Reachable(y)
    ensures y.srv.projects !! y.srv.pipelines.Keys && y.srv.projects !! y.srv.jobs.Keys
    ensures y.srv.pipelines.Keys !! y.srv.jobs.Keys
    ensures y.srv.runners.Values !! y.srv.projects + y.srv.pipelines.Keys + y.srv.jobs.Keys
    ensures forall a, b :: a in y.srv.jobs && b in y.srv.jobs && y.srv.jobs[a].token == y.srv.jobs[b].token ==> a == b
    ensures forall a, b :: a in y.srv.runners && b in y.srv.runners && y.srv.runners[a] == y.srv.runners[b] ==> a == b
    ensures NewToken("glrt", y.srv.nextID) !in y.srv.runners
  {
    hide JobOk, PipelineOk, Queued, Reported, NewToken;
    ReachableInv(y);
    forall a, b | a in y.srv.jobs && b in y.srv.jobs && y.srv.jobs[a].token == y.srv.jobs[b].token
      ensures a == b
    {
      NewTokenInjective("gljt", a, b);
    }
    var token := NewToken("glrt", y.srv.nextID);
    if token in y.srv.runners {
      NewTokenInjective("glrt", y.srv.runners[token], y.srv.nextID);
    }
  }

  /** Every listed, queued or reported id resolves, and no stored pipeline is pending. */
  lemma EverythingResolves(y: System)
    requires Reachable(y)
    ensures forall pid :: pid in y.srv.pipelines ==>
              y.srv.pipelines[pid].status != PlPending && y.srv.pipelines[pid].stages != [] && Listed(y.srv, pid)
    ensures forall j :: j in y.srv.jobs ==>
              y.srv.jobs[j].pipeline in y.srv.pipelines && j in y.srv.pipelines[y.srv.jobs[j].pipeline].jobIDs
    ensures forall j :: j in y.srv.queue ==> j in y.srv.jobs
    ensures forall r :: r in y.reports ==> Rollable(y.srv, r.0)
  {
    hide Reachable, Placed, StageIndex, Awake, Current;
    forall pid | pid in y.srv.pipelines
      ensures y.srv.pipelines[pid].status != PlPending && y.srv.pipelines[pid].stages != [] && Listed(y.srv, pid)
    {
      PipelineFacts(y, pid);
    }
    forall j | j in y.srv.jobs
      ensures y.srv.jobs[j].pipeline in y.srv.pipelines && j in y.srv.pipelines[y.srv.jobs[j].pipeline].jobIDs
    {
      JobFacts(y, j);
    }
    QueueResolves(y);
  }

  lemma QueueResolves(y: System)
    requires Reachable(y)
    ensures forall j :: j in y.srv.queue ==> j in y.srv.jobs
    ensures forall r :: r in y.reports ==> r.0 in y.srv.jobs
  {
    hide Reachable, IdsUnique, PipelineOk, JobOk;
    ReachableInv(y);
  }

  // ----- The fate of a failed pipeline -----

  /** A listed job that has not been released. */
  ghost predicate Unreleased(s: State, pid: nat, j: nat) {
    && pid in s.pipelines && j in s.pipelines[pid].jobIDs && j in s.jobs
    && s.jobs[j].status == Created && StageIndex(s.pipelines[pid].stages, s.jobs[j].spec.stage) >= 0
  }

  ghost predicate AllReleased(s: State, pid: nat) {
    forall j :: !Unreleased(s, pid, j)
  }

  /**
   * A success report rolled up into a failed pipeline moves it out of failed exactly when the
   * checked stage is done and a later listed stage still has an unreleased job; then it runs again.
   */
  lemma SuccessReportFate(y: System, j: nat)
    requires Reachable(y) && j in y.srv.jobs && Rollable(y.srv, j)
    requires y.srv.jobs[j].pipeline in y.srv.pipelines && y.srv.pipelines[y.srv.jobs[j].pipeline].status == PlFailed
    ensures var pid := y.srv.jobs[j].pipeline;
            var p' := RollUp(y.srv, j, Success).pipelines[pid];
            && (p'.status != PlFailed <==> StageDone(y.srv, pid) && exists i :: Unreleased(y.srv, pid, i))
            && (p'.status != PlFailed ==> p'.status == PlRunning)
  {
    hide Reachable, PipelineOk, JobOk, IdsUnique, Queued, Reported, EnqueueStage, StageDone, Unreleased;
    var s, pid := y.srv, y.srv.jobs[j].pipeline;
    PipelineFacts(y, pid);
    ReachableInv(y);
    if StageDone(s, pid) {
      AdvanceFate(s, y.reports, pid);
    }
  }

  lemma AdvanceFate(s: State, reports: multiset<(nat, JobStatus)>, pid: nat)
    requires JobsOk(s.pipelines, s.jobs) && pid in s.pipelines && s.pipelines[pid].status == PlFailed
    requires PipelineOk(s.jobs, reports, pid, s.pipelines[pid]) && StageDone(s, pid)
    ensures EnqueueStage(Advanced(s, pid), pid).pipelines[pid].status ==
            if exists i :: Unreleased(s, pid, i) then PlRunning else PlFailed
  {
    hide Placed, Positioned, Awake, StageIndex, JobOk, StageDone;
    DoneStageReady(s, reports, pid);
    ReleaseIffUnreleased(Advanced(s, pid), pid);
    assert forall i :: Unreleased(s, pid, i) <==> Unreleased(Advanced(s, pid), pid, i);
  }

  lemma ReleaseIffUnreleased(s: State, pid: nat)
    requires Listed(s, pid) && Ready(s.jobs, s.pipelines[pid])
    ensures var p := s.pipelines[pid];
            NextStage(p.jobIDs, s.jobs, p.stages, p.stageIdx) < |p.stages| <==> exists i :: Unreleased(s, pid, i)
  {
    var p := s.pipelines[pid];
    var k := NextStage(p.jobIDs, s.jobs, p.stages, p.stageIdx);
    if k < |p.stages| {
      var i := Matching(p.jobIDs, s.jobs, p.stages[k])[0];
      assert i in Matching(p.jobIDs, s.jobs, p.stages[k]);
      assert Unreleased(s, pid, i);
    }
    if i :| Unreleased(s, pid, i) {
      var a := StageIndex(p.stages, s.jobs[i].spec.stage);
      assert i in Matching(p.jobIDs, s.jobs, p.stages[a]);
    }
  }

  /** What a step may do to a pipeline it is not about, and to any pipeline at all. */
  ghost predicate Evolves(s: State, t: State, pid: nat, own: bool)
    requires pid in s.pipelines && Resolve(s.pipelines[pid].jobIDs, s.jobs)
  {
    var p := s.pipelines[pid];
    && pid in t.pipelines
    && t.pipelines[pid].jobIDs == p.jobIDs && t.pipelines[pid].stages == p.stages
    && (!own ==> t.pipelines[pid] == p)
    && forall j :: j in p.jobIDs ==>
         && j in t.jobs && t.jobs[j].spec == s.jobs[j].spec && t.jobs[j].pipeline == s.jobs[j].pipeline
         && (t.jobs[j].status == Created ==> s.jobs[j].status == Created)
         && (!own && s.jobs[j].status == Created ==> t.jobs[j].status == Created)
  }

  ghost predicate FinishesIn(s: State, step: Step, pid: nat) {
    step.Finish? && step.job in s.jobs && s.jobs[step.job].pipeline == pid
  }

  lemma EnqueueEvolves(s: State, released: nat, pid: nat)
    requires Listed(s, pid) && Listed(s, released)
    requires forall j :: j in s.pipelines[pid].jobIDs && j in s.pipelines[released].jobIDs ==> pid == released
    ensures Evolves(s, EnqueueStage(s, released), pid, pid == released)
  {
    hide StageIndex;
  }

  lemma FinishEvolves(y: System, j: nat, state: JobStatus, pid: nat)
    requires Inv(y) && pid in y.srv.pipelines && j in y.srv.jobs && Rollable(y.srv, j)
    requires Resolve(y.srv.pipelines[pid].jobIDs, y.srv.jobs)
    ensures Evolves(y.srv, RollUp(y.srv, j, state), pid, y.srv.jobs[j].pipeline == pid)
  {
    hide IdsUnique, Queued, Reported, Placed, Positioned, Awake, StageDone, EnqueueStage, StageIndex, JobOk;
    var q := y.srv.jobs[j].pipeline;
    assert PipelineOk(y.srv.jobs, y.reports, pid, y.srv.pipelines[pid]);
    if state.Success? && q in y.srv.pipelines && StageDone(y.srv, q) {
      assert PipelineOk(y.srv.jobs, y.reports, q, y.srv.pipelines[q]);
      EnqueueEvolves(Advanced(y.srv, q), q, pid);
    }
  }

  lemma LaunchEvolves(y: System, project: nat, config: CI.Config, pid: nat)
    requires Inv(y) && Enabled(y, Launch(project, config)) && pid in y.srv.pipelines
    requires Resolve(y.srv.pipelines[pid].jobIDs, y.srv.jobs)
    ensures Evolves(y.srv, CreatePipeline(y.srv, project, config), pid, false)
  {
    hide Queued, Reported, Placed, Positioned, Awake, EnqueueStage, StageIndex, NewToken, AddPipeline, JobOk;
    hide Block, FreshJob;
    var t, q := AddPipeline(y.srv, project, config), y.srv.nextID;
    AddPipelineFrame(y.srv, project, config);
    AddPipelineOwns(y.srv, project, config);
    assert forall j :: j in y.srv.pipelines[pid].jobIDs ==> j < q;
    assert Listed(t, pid);
    EnqueueEvolves(t, q, pid);
  }

  lemma StatusEvolves(s: State, j: nat, status: JobStatus, pid: nat)
    requires pid in s.pipelines && Resolve(s.pipelines[pid].jobIDs, s.jobs)
    requires j in s.jobs && s.jobs[j].status != Created && status != Created
    ensures Evolves(s, SetStatus(s, j, status), pid, false)
  {
  }

  lemma SameEvolves(s: State, t: State, pid: nat, own: bool)
    requires pid in s.pipelines && Resolve(s.pipelines[pid].jobIDs, s.jobs)
    requires t.pipelines == s.pipelines && t.jobs == s.jobs
    ensures Evolves(s, t, pid, own)
  {
  }

  lemma ArtifactEvolves(y: System, step: Step, pid: nat)
    requires pid in y.srv.pipelines && Resolve(y.srv.pipelines[pid].jobIDs, y.srv.jobs)
    requires Enabled(y, step) && (step.StoreArtifact? || step.RecordArtifact?)
    ensures Evolves(y.srv, Apply(y, step).srv, pid, false)
  {
    hide Apply;
    ArtifactFrame(y, step);
  }

  lemma StepEvolves(y: System, step: Step, pid: nat)
    requires Inv(y) && Enabled(y, step) && pid in y.srv.pipelines
    ensures Resolve(y.srv.pipelines[pid].jobIDs, y.srv.jobs)
    ensures Evolves(y.srv, Apply(y, step).srv, pid, FinishesIn(y.srv, step, pid))
  {
    hide IdsUnique, Reported, Placed, Positioned, Awake, EnqueueStage, StageIndex, AddPipeline, JobOk;
    hide CreatePipeline, RollUp, SetStatus, NameArtifact, SizeArtifact, Evolves;
    assert PipelineOk(y.srv.jobs, y.reports, pid, y.srv.pipelines[pid]);
    match step
    case Launch(project, config) => LaunchEvolves(y, project, config, pid);
    case Refresh(project) =>
      RefreshKeeps(y, project);
      SameEvolves(y.srv, y.srv, pid, false);
    case Start(j) => StatusEvolves(y.srv, j, Running, pid);
    case Report(j, state) => StatusEvolves(y.srv, j, state, pid);
    case Finish(j, state) => FinishEvolves(y, j, state, pid);
    case StoreArtifact(_, _, _) => ArtifactEvolves(y, step, pid);
    case RecordArtifact(_) => ArtifactEvolves(y, step, pid);
    case _ => SameEvolves(y.srv, Apply(y, step).srv, pid, false);
  }

  /** A run in which no success report of the pipeline is rolled up. */
  ghost predicate NoSuccessIn(steps: seq<Step>, ids: seq<nat>) {
    forall step :: step in steps && step.Finish? && step.state == Success ==> step.job !in ids
  }

  lemma {:induction false} FailedStaysFrom(y: System, steps: seq<Step>, pid: nat)
    requires Inv(y) && IsRun(y, steps) && pid in y.srv.pipelines && y.srv.pipelines[pid].status == PlFailed
    requires NoSuccessIn(steps, y.srv.pipelines[pid].jobIDs)
    ensures var t := After(y, steps).srv;
            && pid in t.pipelines && t.pipelines[pid] == y.srv.pipelines[pid]
            && forall j :: j in y.srv.pipelines[pid].jobIDs ==>
                 j in y.srv.jobs && j in t.jobs && (t.jobs[j].status == Created <==> y.srv.jobs[j].status == Created)
    decreases |steps|
  {
    hide IdsUnique, Queued, Reported, JobOk, PipelineOk, Apply;
    if steps == [] {
      StepEvolves(y, Refresh(0), pid);
    } else {
      var z := Apply(y, steps[0]);
      StepEvolves(y, steps[0], pid);
      StepKeeps(y, steps[0]);
      NonSuccessFinish(y, steps[0], pid);
      FailedStaysFrom(z, steps[1..], pid);
    }
  }

  /** Rolling up a failure leaves a failed pipeline as it is. */
  lemma NonSuccessFinish(y: System, step: Step, pid: nat)
    requires Inv(y) && Enabled(y, step) && pid in y.srv.pipelines && y.srv.pipelines[pid].status == PlFailed
    requires NoSuccessIn([step], y.srv.pipelines[pid].jobIDs)
    ensures FinishesIn(y.srv, step, pid) ==> Apply(y, step).srv == y.srv
  {
    hide IdsUnique, Queued, PipelineOk, Placed;
    if FinishesIn(y.srv, step, pid) {
      assert JobOk(y.srv.pipelines, step.job, y.srv.jobs[step.job]);
      assert step in [step];
      assert (step.job, step.state) in y.reports;
    }
  }

  lemma {:induction false} FailedReleasedFrom(y: System, steps: seq<Step>, pid: nat)
    requires Inv(y) && IsRun(y, steps) && pid in y.srv.pipelines && y.srv.pipelines[pid].status == PlFailed
    requires AllReleased(y.srv, pid)
    ensures pid in After(y, steps).srv.pipelines && After(y, steps).srv.pipelines[pid].status == PlFailed
    decreases |steps|
  {
    hide IdsUnique, Queued, Reported, JobOk, PipelineOk, Apply, RollUp;
    if steps != [] {
      StepEvolves(y, steps[0], pid);
      StepKeeps(y, steps[0]);
      OwnFinishFails(y, steps[0], pid);
      assert forall j :: Unreleased(Apply(y, steps[0]).srv, pid, j) ==> Unreleased(y.srv, pid, j);
      FailedReleasedFrom(Apply(y, steps[0]), steps[1..], pid);
    }
  }

  lemma OwnFinishFails(y: System, step: Step, pid: nat)
    requires Inv(y) && Enabled(y, step) && pid in y.srv.pipelines && y.srv.pipelines[pid].status == PlFailed
    requires AllReleased(y.srv, pid)
    ensures FinishesIn(y.srv, step, pid) ==>
              pid in Apply(y, step).srv.pipelines && Apply(y, step).srv.pipelines[pid].status == PlFailed
  {
    hide IdsUnique, Queued, Placed, EnqueueStage, Positioned, Awake, JobOk, PipelineOk, StageDone, Unreleased;
    if FinishesIn(y.srv, step, pid) {
      assert (step.job, step.state) in y.reports;
      assert PipelineOk(y.srv.jobs, y.reports, pid, y.srv.pipelines[pid]);
      if StageDone(y.srv, pid) {
        AdvanceFate(y.srv, y.reports, pid);
        EnqueueTouchesOwn(Advanced(y.srv, pid), pid);
      }
    }
  }

  /** With no success report rolled up after the failure, the pipeline stays failed and releases nothing. */
  lemma FailedStays(y: System, steps: seq<Step>, pid: nat)
    requires Reachable(y) && IsRun(y, steps) && pid in y.srv.pipelines && y.srv.pipelines[pid].status == PlFailed
    requires NoSuccessIn(steps, y.srv.pipelines[pid].jobIDs)
    ensures var t := After(y, steps).srv;
            && pid in t.pipelines && t.pipelines[pid] == y.srv.pipelines[pid]
            && forall j :: j in y.srv.pipelines[pid].jobIDs ==>
                 j in y.srv.jobs && j in t.jobs && (t.jobs[j].status == Created <==> y.srv.jobs[j].status == Created)
  {
    hide Inv, Reachable, IsRun, After;
    ReachableInv(y);
    FailedStaysFrom(y, steps, pid);
  }

  /** A failure once every listed job has been released is permanent, whatever is reported later. */
  lemma FailurePermanent(y: System, steps: seq<Step>, pid: nat)
    requires Reachable(y) && IsRun(y, steps) && pid in y.srv.pipelines && y.srv.pipelines[pid].status == PlFailed
    requires AllReleased(y.srv, pid)
    ensures pid in After(y, steps).srv.pipelines && After(y, steps).srv.pipelines[pid].status == PlFailed
  {
    hide Inv, Reachable, IsRun, After;
    ReachableInv(y);
    FailedReleasedFrom(y, steps, pid);
  }
}
