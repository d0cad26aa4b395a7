/**
 * What a release and a roll-up do to the server, field by field: which stage is released, in which
 * order, what a failed report does, and when a pipeline is failed over a whole run.
 */
module SchedulerOutcomes {
  import opened Tokens
  import opened Scheduler
  import opened SchedulerRuns
  import opened SchedulerTheorems
  import CI = CIConfig

  // ----- Which jobs a release takes -----

  /** A created job of this pipeline whose stage is the one at position `r`. */
  predicate Waits(s: State, pid: nat, r: nat, j: nat) {
    && pid in s.pipelines && r < |s.pipelines[pid].stages|
    && j in s.pipelines[pid].jobIDs && j in s.jobs
    && s.jobs[j].spec.stage == s.pipelines[pid].stages[r] && s.jobs[j].status == Created
  }

  /** The first position from `k` on whose stage has a waiting job. */
  ghost predicate NextPopulated(s: State, pid: nat, k: nat, r: nat) {
    k <= r && Populated(s, pid, r) && forall q :: k <= q < r ==> !Populated(s, pid, q)
  }

  ghost predicate Populated(s: State, pid: nat, r: nat) {
    exists j :: Waits(s, pid, r, j)
  }

  /** The ids of `m` occur in `ids` at increasing positions. */
  ghost predicate InOrder(m: seq<nat>, ids: seq<nat>) {
    forall a, b :: 0 <= a < b < |m| ==> Precedes(ids, m[a], m[b])
  }

  ghost predicate Precedes(ids: seq<nat>, x: nat, y: nat) {
    exists i, k :: 0 <= i < k < |ids| && ids[i] == x && ids[k] == y
  }

  /**
   * Stage `r` is released: its waiting jobs become pending and join the queue in pipeline order, the
   * pipeline runs at `r`, and nothing else changes.
   */
  ghost predicate Releases(s: State, t: State, pid: nat, r: nat) {
    && pid in s.pipelines
    && t == s.(jobs := t.jobs, queue := t.queue,
               pipelines := s.pipelines[pid := s.pipelines[pid].(status := PlRunning, stageIdx := r)])
    && t.jobs.Keys == s.jobs.Keys
    && (forall j :: j in s.jobs ==>
          t.jobs[j] == if Waits(s, pid, r, j) then s.jobs[j].(status := Pending) else s.jobs[j])
    && |s.queue| <= |t.queue| && t.queue[..|s.queue|] == s.queue
    && var m := t.queue[|s.queue|..];
       (forall j :: j in m <==> Waits(s, pid, r, j)) && InOrder(m, s.pipelines[pid].jobIDs)
  }

  /** Nothing is left from position `k` on: only the pipeline's record changes, and a failure stays. */
  ghost predicate Completes(s: State, t: State, pid: nat, k: nat) {
    && pid in s.pipelines
    && var p := s.pipelines[pid];
       var done := p.(status := if p.status == PlFailed then PlFailed else PlSuccess,
                      stageIdx := if k < |p.stages| then |p.stages| else k);
       t == s.(pipelines := s.pipelines[pid := done])
  }

  /** Releasing from position `k` on: the next populated stage, or completion if there is none. */
  ghost predicate ReleasesFrom(s: State, t: State, pid: nat, k: nat) {
    && (forall r :: NextPopulated(s, pid, k, r) ==> Releases(s, t, pid, r))
    && ((forall r :: !NextPopulated(s, pid, k, r)) ==> Completes(s, t, pid, k))
  }

  lemma {:induction false} MatchingInOrder(ids: seq<nat>, jobs: map<nat, Job>, stage: string)
    requires Resolve(ids, jobs)
    ensures InOrder(Matching(ids, jobs, stage), ids)
  {
    if ids != [] {
      var n := |ids| - 1;
      var before := Matching(ids[..n], jobs, stage);
      MatchingInOrder(ids[..n], jobs, stage);
      var m := Matching(ids, jobs, stage);
      forall a, b | 0 <= a < b < |m|
        ensures Precedes(ids, m[a], m[b])
      {
        if b < |before| {
          assert Precedes(ids[..n], m[a], m[b]);
          var i, k :| 0 <= i < k < |ids[..n]| && ids[..n][i] == m[a] && ids[..n][k] == m[b];
          assert ids[i] == m[a] && ids[k] == m[b];
        } else {
          assert before[a] in before;
          var i :| 0 <= i < n && ids[..n][i] == before[a];
          assert ids[i] == m[a] && ids[n] == m[b];
        }
      }
    }
  }

  lemma ReleaseOutcome(s: State, pid: nat)
    requires Listed(s, pid)
    ensures ReleasesFrom(s, EnqueueStage(s, pid), pid, s.pipelines[pid].stageIdx)
  {
    hide Matching, InOrder;
    var p, t := s.pipelines[pid], EnqueueStage(s, pid);
    var k := NextStage(p.jobIDs, s.jobs, p.stages, p.stageIdx);
    if k < |p.stages| {
      var m := Matching(p.jobIDs, s.jobs, p.stages[k]);
      assert m[0] in m && Waits(s, pid, k, m[0]);
      NoneBefore(s, pid, k);
      assert NextPopulated(s, pid, p.stageIdx, k);
      MatchingInOrder(p.jobIDs, s.jobs, p.stages[k]);
      assert t.queue[|s.queue|..] == m && t.queue[..|s.queue|] == s.queue;
      assert Releases(s, t, pid, k);
      assert forall r :: NextPopulated(s, pid, p.stageIdx, r) ==> r == k;
    } else {
      NoneBefore(s, pid, |p.stages|);
    }
  }

  lemma NoneBefore(s: State, pid: nat, k: nat)
    requires Listed(s, pid)
    requires k <= NextStage(s.pipelines[pid].jobIDs, s.jobs, s.pipelines[pid].stages, s.pipelines[pid].stageIdx)
    ensures forall q, j :: s.pipelines[pid].stageIdx <= q < k ==> !Waits(s, pid, q, j)
  {
    hide Matching;
    var p := s.pipelines[pid];
    forall q, j | p.stageIdx <= q < k
      ensures !Waits(s, pid, q, j)
    {
      if q < |p.stages| {
        assert Matching(p.jobIDs, s.jobs, p.stages[q]) == [];
        assert j !in Matching(p.jobIDs, s.jobs, p.stages[q]);
      }
    }
  }

  // ----- A finished job is rolled up -----

  /** Some job of the stage the pipeline stands at, or of its last stage if it is past it, has not finished. */
  ghost predicate Busy(s: State, pid: nat) {
    && pid in s.pipelines && s.pipelines[pid].stages != []
    && var p := s.pipelines[pid];
       var stage := p.stages[if p.stageIdx < |p.stages| then p.stageIdx else |p.stages| - 1];
       exists j :: j in p.jobIDs && j in s.jobs && s.jobs[j].spec.stage == stage &&
                   s.jobs[j].status != Success && s.jobs[j].status != Failed
  }

  /** A failed report fails the job's pipeline at once, whatever its other jobs do, and changes nothing else. */
  lemma FailureOutcome(y: System, j: nat)
    requires Reachable(y) && Enabled(y, Finish(j, Failed))
    ensures var s, pid := y.srv, y.srv.jobs[j].pipeline;
            && pid in s.pipelines
            && Apply(y, Finish(j, Failed)).srv ==
               s.(pipelines := s.pipelines[pid := s.pipelines[pid].(status := PlFailed)])
  {
    hide Reachable, JobOk;
    FinishResolves(y, j, Failed);
  }

  lemma FinishResolves(y: System, j: nat, state: JobStatus)
    requires Reachable(y) && Enabled(y, Finish(j, state))
    ensures y.srv.jobs[j].pipeline in y.srv.pipelines && j in y.srv.pipelines[y.srv.jobs[j].pipeline].jobIDs
    ensures state.Terminal() && y.srv.jobs[j].status == state
  {
    hide Reachable;
    JobFacts(y, j);
    ReportsResolve(y, (j, state));
  }

  lemma ReportsResolve(y: System, r: (nat, JobStatus))
    requires Reachable(y) && r in y.reports
    ensures r.0 in y.srv.jobs && r.1.Terminal() && y.srv.jobs[r.0].status == r.1
  {
    hide IdsUnique, JobsOk, PipelinesOk, Queued;
    ReachableInv(y);
  }

  /** A success report does nothing while the stage is busy; then it releases from the next position on. */
  lemma SuccessOutcome(y: System, j: nat)
    requires Reachable(y) && Enabled(y, Finish(j, Success))
    ensures var s, t, pid := y.srv, Apply(y, Finish(j, Success)).srv, y.srv.jobs[j].pipeline;
            && pid in s.pipelines
            && (Busy(s, pid) ==> t == s)
            && (!Busy(s, pid) ==> ReleasesFrom(s, t, pid, s.pipelines[pid].stageIdx + 1))
  {
    hide Reachable, EnqueueStage, ReleasesFrom;
    FinishResolves(y, j, Success);
    var s, pid := y.srv, y.srv.jobs[j].pipeline;
    BusyIsNotDone(s, pid);
    if !Busy(s, pid) {
      ReleaseOutcome(Advanced(s, pid), pid);
      AdvancedReleases(s, EnqueueStage(Advanced(s, pid), pid), pid);
    }
  }

  lemma BusyIsNotDone(s: State, pid: nat)
    requires Listed(s, pid) && s.pipelines[pid].stages != []
    ensures Busy(s, pid) <==> !StageDone(s, pid)
  {
  }

  lemma AdvancedWaits(s: State, pid: nat)
    requires pid in s.pipelines
    ensures forall r, j :: Waits(Advanced(s, pid), pid, r, j) <==> Waits(s, pid, r, j)
    ensures forall k, r :: NextPopulated(Advanced(s, pid), pid, k, r) <==> NextPopulated(s, pid, k, r)
  {
    assert forall r, j :: Waits(Advanced(s, pid), pid, r, j) <==> Waits(s, pid, r, j);
    hide Waits;
    forall r: nat
      ensures Populated(Advanced(s, pid), pid, r) <==> Populated(s, pid, r)
    {
      if j: nat :| Waits(s, pid, r, j) {
        assert Waits(Advanced(s, pid), pid, r, j);
      }
    }
  }

  lemma AdvancedRelease(s: State, t: State, pid: nat, r: nat)
    requires pid in s.pipelines && Releases(Advanced(s, pid), t, pid, r)
    ensures Releases(s, t, pid, r)
  {
    AdvancedWaits(s, pid);
    hide Waits, InOrder, NextPopulated;
  }

  lemma AdvancedReleases(s: State, t: State, pid: nat)
    requires pid in s.pipelines && ReleasesFrom(Advanced(s, pid), t, pid, s.pipelines[pid].stageIdx + 1)
    ensures ReleasesFrom(s, t, pid, s.pipelines[pid].stageIdx + 1)
  {
    AdvancedWaits(s, pid);
    hide Waits, NextPopulated, Releases;
    var k := s.pipelines[pid].stageIdx + 1;
    forall r | NextPopulated(s, pid, k, r)
      ensures Releases(s, t, pid, r)
    {
      AdvancedRelease(s, t, pid, r);
    }
  }

  // ----- When a pipeline is failed, over a whole run -----

  ghost predicate IsFailed(s: State, pid: nat) {
    pid in s.pipelines && s.pipelines[pid].status == PlFailed
  }

  /** A failed report of one of the pipeline's jobs is rolled up. */
  ghost predicate Fails(y: System, step: Step, pid: nat) {
    step.Finish? && step.state == Failed && step.job in y.srv.jobs && y.srv.jobs[step.job].pipeline == pid
  }

  /** A success report is rolled up while the stage is done and a later stage still waits. */
  ghost predicate Reopens(y: System, step: Step, pid: nat) {
    && step.Finish? && step.state == Success && step.job in y.srv.jobs && y.srv.jobs[step.job].pipeline == pid
    && pid in y.srv.pipelines && !Busy(y.srv, pid)
    && exists r :: r > y.srv.pipelines[pid].stageIdx && Populated(y.srv, pid, r)
  }

  lemma OwnFinishFate(y: System, step: Step, pid: nat)
    requires Reachable(y) && Enabled(y, step) && FinishesIn(y.srv, step, pid)
    ensures IsFailed(Apply(y, step).srv, pid) <==>
              Fails(y, step, pid) || (IsFailed(y.srv, pid) && !Reopens(y, step, pid))
  {
    hide Reachable, RollUp, Busy, InOrder;
    FinishResolves(y, step.job, step.state);
    if step.state == Failed {
      FailureOutcome(y, step.job);
    } else {
      SuccessOutcome(y, step.job);
      if !Busy(y.srv, pid) {
        ReleasedFate(y.srv, Apply(y, step).srv, pid, y.srv.pipelines[pid].stageIdx + 1);
      }
    }
  }

  lemma ReleasedFate(s: State, t: State, pid: nat, k: nat)
    requires pid in s.pipelines && ReleasesFrom(s, t, pid, k)
    ensures IsFailed(t, pid) <==> IsFailed(s, pid) && forall r :: r >= k ==> !Populated(s, pid, r)
  {
    hide InOrder, Populated;
    if r :| r >= k && Populated(s, pid, r) {
      var first := FirstPopulated(s, pid, k, r);
      assert Releases(s, t, pid, first);
    } else {
      assert forall r :: !NextPopulated(s, pid, k, r);
    }
  }

  lemma {:induction false} FirstPopulated(s: State, pid: nat, k: nat, r: nat) returns (first: nat)
    requires k <= r && Populated(s, pid, r)
    ensures NextPopulated(s, pid, k, first)
    decreases r
  {
    hide Populated;
    if q :| k <= q < r && Populated(s, pid, q) {
      first := FirstPopulated(s, pid, k, q);
    } else {
      first := r;
    }
  }

  /** One step: a pipeline is failed exactly if it fails now, or was failed and is not re-opened. */
  lemma FailedStep(y: System, step: Step, pid: nat)
    requires Reachable(y) && Enabled(y, step)
    ensures IsFailed(Apply(y, step).srv, pid) <==>
              Fails(y, step, pid) || (IsFailed(y.srv, pid) && !Reopens(y, step, pid))
  {
    hide Reachable, Inv, Apply, Enabled, Busy, Waits;
    ReachableInv(y);
    if pid in y.srv.pipelines {
      if FinishesIn(y.srv, step, pid) {
        OwnFinishFate(y, step, pid);
      } else {
        StepEvolves(y, step, pid);
      }
    } else {
      NewIsNotFailed(y, step, pid);
    }
  }

  lemma NewIsNotFailed(y: System, step: Step, pid: nat)
    requires Reachable(y) && Enabled(y, step) && pid !in y.srv.pipelines
    ensures !IsFailed(Apply(y, step).srv, pid) && !Fails(y, step, pid)
  {
    hide Reachable, RollUp, CreatePipeline, Apply;
    if step.Launch? {
      LaunchedIsNotFailed(y.srv, step.project, step.config, pid);
      LaunchApplied(y, step.project, step.config);
    } else if step.Finish? {
      FinishResolves(y, step.job, step.state);
      FinishKeepsPipelines(y.srv, step.job, step.state);
      FinishApplied(y, step.job, step.state);
    } else {
      OthersKeepPipelines(y, step);
    }
  }

  lemma LaunchApplied(y: System, project: nat, config: CI.Config)
    requires Enabled(y, Launch(project, config))
    ensures Apply(y, Launch(project, config)).srv == CreatePipeline(y.srv, project, config)
  {
    hide CreatePipeline;
  }

  lemma FinishApplied(y: System, j: nat, state: JobStatus)
    requires Enabled(y, Finish(j, state))
    ensures Apply(y, Finish(j, state)).srv == RollUp(y.srv, j, state)
  {
    hide RollUp;
  }

  lemma OthersKeepPipelines(y: System, step: Step)
    requires Enabled(y, step) && !step.Launch? && !step.Finish?
    ensures Apply(y, step).srv.pipelines.Keys == y.srv.pipelines.Keys
  {
    hide NewToken, SizeArtifact, NameArtifact, Dequeue;
    if step.StoreArtifact? || step.RecordArtifact? {
      ArtifactKeepsPipelines(y, step);
    }
  }

  lemma ArtifactKeepsPipelines(y: System, step: Step)
    requires Enabled(y, step) && (step.StoreArtifact? || step.RecordArtifact?)
    ensures Apply(y, step).srv.pipelines == y.srv.pipelines
  {
    hide Apply;
    ArtifactFrame(y, step);
  }

  lemma FinishKeepsPipelines(s: State, j: nat, state: JobStatus)
    requires Rollable(s, j)
    ensures RollUp(s, j, state).pipelines.Keys == s.pipelines.Keys
  {
    hide EnqueueStage, StageDone;
    var pid := s.jobs[j].pipeline;
    if pid in s.pipelines {
      EnqueueFrame(Advanced(s, pid), pid);
    }
  }

  lemma LaunchedIsNotFailed(s: State, project: nat, config: CI.Config, pid: nat)
    requires pid !in s.pipelines
    ensures !IsFailed(CreatePipeline(s, project, config), pid)
  {
    hide AddPipeline;
    AddPipelineFrame(s, project, config);
  }

  lemma {:induction false} Prefix(y: System, steps: seq<Step>, n: nat)
    requires IsRun(y, steps) && n <= |steps|
    ensures IsRun(y, steps[..n])
    ensures n < |steps| ==> Enabled(After(y, steps[..n]), steps[n]) && IsRun(y, steps[..n + 1]) &&
                            After(y, steps[..n + 1]) == Apply(After(y, steps[..n]), steps[n])
    decreases n
  {
    hide Enabled, Apply;
    if n == 0 {
      if steps != [] {
        assert steps[..1][1..] == [] && steps[..1][0] == steps[0];
      }
    } else {
      Prefix(Apply(y, steps[0]), steps[1..], n - 1);
      assert steps[..n][1..] == steps[1..][..n - 1];
      if n < |steps| {
        assert steps[..n + 1][1..] == steps[1..][..n];
      }
    }
  }

  /** The state after the first `n` steps. */
  ghost function Moment(steps: seq<Step>, n: nat): System
    requires IsRun(START, steps) && n <= |steps|
  {
    Prefix(START, steps, n);
    After(START, steps[..n])
  }

  lemma MomentStep(steps: seq<Step>, n: nat)
    requires IsRun(START, steps) && n < |steps|
    ensures Reachable(Moment(steps, n)) && Enabled(Moment(steps, n), steps[n])
    ensures Moment(steps, n + 1) == Apply(Moment(steps, n), steps[n])
  {
    hide Enabled, Apply, IsRun, After;
    Prefix(START, steps, n);
  }

  /** The last failure among the first `n` steps has not been undone. */
  ghost predicate FailedSince(steps: seq<Step>, pid: nat, k: nat, n: nat)
    requires IsRun(START, steps) && k < n <= |steps|
  {
    && Fails(Moment(steps, k), steps[k], pid)
    && forall m :: k < m < n ==> !Reopens(Moment(steps, m), steps[m], pid)
  }

  lemma {:induction false} FailedAt(steps: seq<Step>, pid: nat, n: nat)
    requires IsRun(START, steps) && n <= |steps|
    ensures IsFailed(Moment(steps, n).srv, pid) <==> exists k :: 0 <= k < n && FailedSince(steps, pid, k, n)
    decreases n
  {
    hide Enabled, Apply, IsRun, After, Fails, Reopens;
    if n == 0 {
      NothingAtStart(steps);
    } else {
      FailedAt(steps, pid, n - 1);
      MomentStep(steps, n - 1);
      FailedStep(Moment(steps, n - 1), steps[n - 1], pid);
      if k :| 0 <= k < n && FailedSince(steps, pid, k, n) {
        assert k < n - 1 ==> FailedSince(steps, pid, k, n - 1);
      }
      if Fails(Moment(steps, n - 1), steps[n - 1], pid) {
        assert FailedSince(steps, pid, n - 1, n);
      } else if IsFailed(Moment(steps, n).srv, pid) {
        var k :| 0 <= k < n - 1 && FailedSince(steps, pid, k, n - 1);
        assert FailedSince(steps, pid, k, n);
      }
    }
  }

  lemma NothingAtStart(steps: seq<Step>)
    requires IsRun(START, steps)
    ensures Moment(steps, 0) == START
  {
    assert steps[..0] == [];
  }

  /**
   * Over any run from the empty server: a pipeline is failed at the end exactly if a failed report of
   * one of its jobs was rolled up, and since then no success report found its stage done with a
   * later stage waiting.
   */
  lemma FailedIff(steps: seq<Step>, pid: nat)
    requires IsRun(START, steps)
    ensures IsFailed(After(START, steps).srv, pid) <==>
            exists k :: 0 <= k < |steps| && FailedSince(steps, pid, k, |steps|)
  {
    hide IsRun, After, FailedSince;
    FailedAt(steps, pid, |steps|);
    assert steps[..|steps|] == steps;
  }
}
