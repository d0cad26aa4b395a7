/** What a new pipeline looks like, and that its configuration stays with it over every run. */
module SchedulerLaunch {
  import opened Options
  import opened Tokens
  import opened Scheduler
  import opened SchedulerRuns
  import opened SchedulerTheorems
  import opened SchedulerOutcomes
  import CI = CIConfig

  // ----- A pipeline is created -----

  /** The pipeline's record and its jobs are as configured, whatever their statuses. */
  ghost predicate AsConfigured(s: State, pid: nat, project: nat, config: CI.Config) {
    && pid in s.pipelines
    && var p, n := s.pipelines[pid], |config.jobs|;
       && p.project == project && p.stages == config.stages
       && |p.jobIDs| == n && (forall i :: 0 <= i < n ==> p.jobIDs[i] == pid + 1 + i)
       && forall j :: pid < j <= pid + n ==>
            j in s.jobs && JobAsConfigured(s.jobs[j], j, pid, project, config.jobs[j - pid - 1])
  }

  predicate JobAsConfigured(job: Job, j: nat, pid: nat, project: nat, spec: CI.Job) {
    job.spec == spec && job.pipeline == pid && job.project == project && job.token == NewToken("gljt", j)
  }

  ghost predicate ConfiguredAt(config: CI.Config, r: nat) {
    r < |config.stages| && exists i :: 0 <= i < |config.jobs| && config.jobs[i].stage == config.stages[r]
  }

  /** The first stage of the list that has a job. */
  ghost predicate FirstConfigured(config: CI.Config, r: nat) {
    ConfiguredAt(config, r) && forall q :: 0 <= q < r ==> !ConfiguredAt(config, q)
  }

  /** The new jobs are pending if their stage is `first`, created otherwise, and have no artifacts. */
  ghost predicate FreshStatuses(t: State, pid: nat, config: CI.Config, first: Option<string>) {
    forall j :: pid < j <= pid + |config.jobs| ==>
      && j in t.jobs
      && t.jobs[j].status == (if first == Some(config.jobs[j - pid - 1].stage) then Pending else Created)
      && t.jobs[j].artifactSize == 0 && t.jobs[j].artifactFilename == ""
  }

  /** The ids added to the queue: the jobs of the stage, in the order of the configuration. */
  ghost predicate QueuedFor(added: seq<nat>, pid: nat, config: CI.Config, stage: string) {
    && (forall j :: j in added <==> pid < j <= pid + |config.jobs| && config.jobs[j - pid - 1].stage == stage)
    && forall a, b :: 0 <= a < b < |added| ==> added[a] < added[b]
  }

  /** A new pipeline runs at the first stage that has a job, or is done if no stage has one. */
  ghost predicate StartsAt(s: State, t: State, pid: nat, config: CI.Config) {
    && pid in t.pipelines
    && (forall r: nat :: FirstConfigured(config, r) ==>
          && t.pipelines[pid].status == PlRunning && t.pipelines[pid].stageIdx == r
          && FreshStatuses(t, pid, config, Some(config.stages[r]))
          && |s.queue| <= |t.queue| && t.queue[..|s.queue|] == s.queue
          && QueuedFor(t.queue[|s.queue|..], pid, config, config.stages[r]))
    && ((forall r: nat :: !FirstConfigured(config, r)) ==>
          t.pipelines[pid].status == PlSuccess && FreshStatuses(t, pid, config, None) && t.queue == s.queue)
  }

  /** Everything that was there stays as it was. */
  ghost predicate OthersStay(s: State, t: State, pid: nat, n: nat) {
    && t.nextID == pid + 1 + n && t.runners == s.runners && t.projects == s.projects
    && t.pipelines.Keys == s.pipelines.Keys + {pid}
    && (forall q :: q in s.pipelines ==> q in t.pipelines && t.pipelines[q] == s.pipelines[q])
    && (forall j :: j in t.jobs <==> j in s.jobs || pid < j <= pid + n)
    && (forall j :: j in s.jobs ==> j in t.jobs && t.jobs[j] == s.jobs[j])
  }

  /** A new pipeline before its first release. */
  ghost predicate Prepared(s: State, u: State, pid: nat, project: nat, config: CI.Config) {
    && OthersStay(s, u, pid, |config.jobs|) && AsConfigured(u, pid, project, config)
    && pid !in s.pipelines && (forall j :: j in s.jobs ==> j < pid)
    && u.queue == s.queue && FreshStatuses(u, pid, config, None)
    && u.pipelines[pid].stageIdx == 0 && u.pipelines[pid].status == PlPending
    && (forall j :: j in u.pipelines[pid].jobIDs <==> pid < j <= pid + |config.jobs|)
  }

  lemma AddedIsPrepared(s: State, project: nat, config: CI.Config)
    requires s.nextID !in s.pipelines && forall j :: j in s.jobs ==> j < s.nextID
    ensures Prepared(s, AddPipeline(s, project, config), s.nextID, project, config)
  {
    hide AddPipeline, NewToken;
    AddPipelineFrame(s, project, config);
    var u, pid := AddPipeline(s, project, config), s.nextID;
    assert forall j :: pid < j <= pid + |config.jobs| ==> j in u.jobs;
    assert FreshStatuses(u, pid, config, None);
    assert AsConfigured(u, pid, project, config);
    hide FreshStatuses, AsConfigured, FreshJob;
    assert OthersStay(s, u, pid, |config.jobs|);
    hide OthersStay;
  }

  lemma PreparedWaits(s: State, u: State, pid: nat, project: nat, config: CI.Config, r: nat, j: nat)
    requires Prepared(s, u, pid, project, config)
    ensures Waits(u, pid, r, j) <==>
              r < |config.stages| && pid < j <= pid + |config.jobs| &&
              config.jobs[j - pid - 1].stage == config.stages[r]
  {
    hide OthersStay;
  }

  lemma PreparedPopulated(s: State, u: State, pid: nat, project: nat, config: CI.Config, r: nat)
    requires Prepared(s, u, pid, project, config)
    ensures NextPopulated(u, pid, 0, r) <==> FirstConfigured(config, r)
  {
    hide Prepared, Waits;
    forall q: nat
      ensures Populated(u, pid, q) <==> ConfiguredAt(config, q)
    {
      if ConfiguredAt(config, q) {
        var i :| 0 <= i < |config.jobs| && config.jobs[i].stage == config.stages[q];
        PreparedWaits(s, u, pid, project, config, q, pid + 1 + i);
      }
      if j: nat :| Waits(u, pid, q, j) {
        PreparedWaits(s, u, pid, project, config, q, j);
        assert config.jobs[j - pid - 1].stage == config.stages[q];
      }
    }
  }

  lemma OrderedBlock(first: nat, ids: seq<nat>, m: seq<nat>)
    requires InOrder(m, ids) && forall i :: 0 <= i < |ids| ==> ids[i] == first + i
    ensures forall a, b :: 0 <= a < b < |m| ==> m[a] < m[b]
  {
    forall a, b | 0 <= a < b < |m|
      ensures m[a] < m[b]
    {
      assert Precedes(ids, m[a], m[b]);
    }
  }

  lemma PreparedReleased(s: State, u: State, t: State, pid: nat, project: nat, config: CI.Config, r: nat)
    requires Prepared(s, u, pid, project, config) && r < |config.stages| && Releases(u, t, pid, r)
    ensures FreshStatuses(t, pid, config, Some(config.stages[r]))
    ensures |s.queue| <= |t.queue| && t.queue[..|s.queue|] == s.queue
    ensures QueuedFor(t.queue[|s.queue|..], pid, config, config.stages[r])
  {
    forall j: nat
      ensures Waits(u, pid, r, j) <==>
              pid < j <= pid + |config.jobs| && config.jobs[j - pid - 1].stage == config.stages[r]
    {
      PreparedWaits(s, u, pid, project, config, r, j);
    }
    hide Waits, InOrder, OthersStay, AsConfigured, Releases;
    assert FreshStatuses(u, pid, config, None) && u.queue == s.queue;
    ReleasedStatuses(u, t, pid, config, r);
    ReleasedOrder(s, u, t, pid, project, config, r);
  }

  lemma ReleasedOrder(s: State, u: State, t: State, pid: nat, project: nat, config: CI.Config, r: nat)
    requires Prepared(s, u, pid, project, config) && r < |config.stages| && Releases(u, t, pid, r)
    requires u.queue == s.queue
    requires forall j: nat :: Waits(u, pid, r, j) <==>
               pid < j <= pid + |config.jobs| && config.jobs[j - pid - 1].stage == config.stages[r]
    ensures |s.queue| <= |t.queue| && t.queue[..|s.queue|] == s.queue
    ensures QueuedFor(t.queue[|s.queue|..], pid, config, config.stages[r])
  {
    hide Prepared, Waits, InOrder;
    PreparedOrder(s, u, pid, project, config, t.queue[|s.queue|..]);
  }

  lemma ReleasedStatuses(u: State, t: State, pid: nat, config: CI.Config, r: nat)
    requires r < |config.stages| && Releases(u, t, pid, r) && FreshStatuses(u, pid, config, None)
    requires forall j: nat :: Waits(u, pid, r, j) <==>
               pid < j <= pid + |config.jobs| && config.jobs[j - pid - 1].stage == config.stages[r]
    ensures FreshStatuses(t, pid, config, Some(config.stages[r]))
  {
    hide Waits, InOrder;
  }

  lemma PreparedOrder(s: State, u: State, pid: nat, project: nat, config: CI.Config, m: seq<nat>)
    requires Prepared(s, u, pid, project, config) && InOrder(m, u.pipelines[pid].jobIDs)
    ensures forall a, b :: 0 <= a < b < |m| ==> m[a] < m[b]
  {
    hide OthersStay, FreshStatuses, InOrder;
    OrderedBlock(pid + 1, u.pipelines[pid].jobIDs, m);
  }

  lemma PreparedStarts(s: State, u: State, t: State, pid: nat, project: nat, config: CI.Config)
    requires Prepared(s, u, pid, project, config) && ReleasesFrom(u, t, pid, 0)
    ensures StartsAt(s, t, pid, config)
  {
    forall r: nat
      ensures NextPopulated(u, pid, 0, r) <==> FirstConfigured(config, r)
    {
      PreparedPopulated(s, u, pid, project, config, r);
    }
    hide NextPopulated, FirstConfigured;
    if r: nat :| FirstConfigured(config, r) {
      assert NextPopulated(u, pid, 0, r);
      StartsReleased(s, u, t, pid, project, config, r);
    } else {
      StartsDone(s, u, t, pid, project, config);
    }
  }

  lemma StartsReleased(s: State, u: State, t: State, pid: nat, project: nat, config: CI.Config, r: nat)
    requires Prepared(s, u, pid, project, config) && FirstConfigured(config, r) && Releases(u, t, pid, r)
    ensures StartsAt(s, t, pid, config)
  {
    hide OthersStay, AsConfigured, FreshStatuses, QueuedFor, InOrder, Waits;
    PreparedReleased(s, u, t, pid, project, config, r);
    assert forall q: nat :: FirstConfigured(config, q) ==> q == r;
    hide FirstConfigured;
  }

  lemma StartsDone(s: State, u: State, t: State, pid: nat, project: nat, config: CI.Config)
    requires Prepared(s, u, pid, project, config) && Completes(u, t, pid, 0)
    requires forall r: nat :: !FirstConfigured(config, r)
    ensures StartsAt(s, t, pid, config)
  {
    hide OthersStay, AsConfigured, FirstConfigured;
    assert FreshStatuses(u, pid, config, None);
  }

  /** A release of the new pipeline touches nothing else. */
  lemma PreparedStays(s: State, u: State, pid: nat, project: nat, config: CI.Config)
    requires Prepared(s, u, pid, project, config) && Listed(u, pid)
    ensures OthersStay(s, EnqueueStage(u, pid), pid, |config.jobs|)
  {
    hide EnqueueStage, NewToken, FreshStatuses, AsConfigured;
    EnqueueFrame(u, pid);
    EnqueueTouchesOwn(u, pid);
    PreparedOwns(s, u, pid, project, config);
  }

  lemma PreparedOwns(s: State, u: State, pid: nat, project: nat, config: CI.Config)
    requires Prepared(s, u, pid, project, config)
    ensures pid in u.pipelines && forall j :: j in s.jobs ==> j !in u.pipelines[pid].jobIDs
  {
  }

  lemma ReleaseKeepsConfiguration(u: State, released: nat, pid: nat, project: nat, config: CI.Config)
    requires AsConfigured(u, pid, project, config) && Listed(u, released)
    ensures AsConfigured(EnqueueStage(u, released), pid, project, config)
  {
    hide EnqueueStage, NewToken;
    EnqueueFrame(u, released);
    EnqueueTouchesOwn(u, released);
  }

  /**
   * A new pipeline appears exactly as configured, at the first stage that has a job: that stage's jobs
   * are pending and queued in order, the others created; nothing that was there changes.
   */
  lemma LaunchOutcome(y: System, project: nat, config: CI.Config)
    requires Reachable(y) && Enabled(y, Launch(project, config))
    ensures var s, t, pid := y.srv, Apply(y, Launch(project, config)).srv, y.srv.nextID;
            && AsConfigured(t, pid, project, config) && StartsAt(s, t, pid, config)
            && OthersStay(s, t, pid, |config.jobs|)
  {
    hide Reachable, AsConfigured, StartsAt, OthersStay, Prepared, AddPipeline, EnqueueStage, ReleasesFrom;
    var s, pid := y.srv, y.srv.nextID;
    var u := AddPipeline(s, project, config);
    LaunchApplied(y, project, config);
    NextIdFresh(y);
    AddPipelineOwns(s, project, config);
    AddedIsPrepared(s, project, config);
    PreparedStays(s, u, pid, project, config);
    ReleaseKeepsConfiguration(u, pid, pid, project, config) by { PreparedAtZero(s, u, pid, project, config); }
    ReleaseOutcome(u, pid);
    PreparedAtZero(s, u, pid, project, config);
    PreparedStarts(s, u, EnqueueStage(u, pid), pid, project, config);
  }

  lemma PreparedAtZero(s: State, u: State, pid: nat, project: nat, config: CI.Config)
    requires Prepared(s, u, pid, project, config)
    ensures pid in u.pipelines && u.pipelines[pid].stageIdx == 0 && AsConfigured(u, pid, project, config)
  {
  }

  lemma NextIdFresh(y: System)
    requires Reachable(y)
    ensures y.srv.nextID !in y.srv.pipelines && forall j :: j in y.srv.jobs ==> j < y.srv.nextID
  {
    hide JobsOk, PipelinesOk, Queued, Reported, NewToken;
    ReachableInv(y);
  }

  // ----- Configurations, over a whole run -----

  lemma RollUpKeepsConfiguration(
      s: State, j: nat, state: JobStatus, pid: nat, project: nat, config: CI.Config)
    requires Rollable(s, j) && AsConfigured(s, pid, project, config)
    ensures AsConfigured(RollUp(s, j, state), pid, project, config)
  {
    hide EnqueueStage, StageDone, NewToken;
    var q := s.jobs[j].pipeline;
    if q in s.pipelines {
      assert AsConfigured(Advanced(s, q), pid, project, config);
      ReleaseKeepsConfiguration(Advanced(s, q), q, pid, project, config);
    }
  }

  lemma StatusKeepsConfiguration(s: State, j: nat, status: JobStatus, pid: nat, project: nat, config: CI.Config)
    requires AsConfigured(s, pid, project, config)
    ensures AsConfigured(SetStatus(s, j, status), pid, project, config)
  {
    hide NewToken;
  }

  lemma LaterKeepsConfiguration(
      s: State, t: State, id: nat, n: nat, pid: nat, project: nat, config: CI.Config)
    requires AsConfigured(s, pid, project, config) && OthersStay(s, t, id, n)
    ensures AsConfigured(t, pid, project, config)
  {
    hide NewToken;
  }

  predicate SameIdentity(a: Job, b: Job) {
    b.token == a.token && b.project == a.project && b.pipeline == a.pipeline && b.spec == a.spec
  }

  lemma SameKeepsConfiguration(s: State, t: State, pid: nat, project: nat, config: CI.Config)
    requires AsConfigured(s, pid, project, config) && t.pipelines == s.pipelines
    requires forall j :: j in s.jobs ==> j in t.jobs && SameIdentity(s.jobs[j], t.jobs[j])
    ensures AsConfigured(t, pid, project, config)
  {
    hide NewToken;
  }

  lemma ArtifactKeepsConfiguration(y: System, step: Step, pid: nat, project: nat, config: CI.Config)
    requires Enabled(y, step) && (step.StoreArtifact? || step.RecordArtifact?)
    requires AsConfigured(y.srv, pid, project, config)
    ensures AsConfigured(Apply(y, step).srv, pid, project, config)
  {
    hide Apply, NewToken, AsConfigured;
    ArtifactFrame(y, step);
    SameKeepsConfiguration(y.srv, Apply(y, step).srv, pid, project, config);
  }

  /** No step touches the configuration of a pipeline or of its jobs. */
  lemma ConfigurationStays(y: System, step: Step, pid: nat, project: nat, config: CI.Config)
    requires Reachable(y) && Enabled(y, step) && AsConfigured(y.srv, pid, project, config)
    ensures AsConfigured(Apply(y, step).srv, pid, project, config)
  {
    hide AsConfigured, Reachable, Inv, RollUp, CreatePipeline, NameArtifact, SizeArtifact, SetStatus, NewToken, Dequeue;
    hide OthersStay, StartsAt;
    match step
    case Launch(q, other) =>
      LaunchOutcome(y, q, other);
      LaterKeepsConfiguration(y.srv, Apply(y, step).srv, y.srv.nextID, |other.jobs|, pid, project, config);
    case Finish(j, state) => RollUpKeepsConfiguration(y.srv, j, state, pid, project, config);
    case Refresh(q) => ReachableInv(y); RefreshKeeps(y, q);
    case StoreArtifact(_, _, _) => ArtifactKeepsConfiguration(y, step, pid, project, config);
    case RecordArtifact(_) => ArtifactKeepsConfiguration(y, step, pid, project, config);
    case Start(j) => StatusKeepsConfiguration(y.srv, j, Running, pid, project, config);
    case Report(j, state) => StatusKeepsConfiguration(y.srv, j, state, pid, project, config);
    case _ => SameKeepsConfiguration(y.srv, Apply(y, step).srv, pid, project, config);
  }

  /** Step `k` of the run created the pipeline, from this project and configuration. */
  ghost predicate CreatedAt(steps: seq<Step>, k: nat, pid: nat)
    requires IsRun(START, steps) && k < |steps|
  {
    steps[k].Launch? && Moment(steps, k).srv.nextID == pid
  }

  lemma {:induction false} ConfiguredAtMoment(steps: seq<Step>, pid: nat, n: nat)
    requires IsRun(START, steps) && n <= |steps| && pid in Moment(steps, n).srv.pipelines
    ensures exists k :: 0 <= k < n && CreatedAt(steps, k, pid) &&
                        AsConfigured(Moment(steps, n).srv, pid, steps[k].project, steps[k].config)
    decreases n
  {
    hide Enabled, Apply, IsRun, After, AsConfigured;
    if n == 0 {
      NothingAtStart(steps);
    } else {
      var y, step := Moment(steps, n - 1), steps[n - 1];
      MomentStep(steps, n - 1);
      if pid in y.srv.pipelines {
        ConfiguredAtMoment(steps, pid, n - 1);
        var k :| 0 <= k < n - 1 && CreatedAt(steps, k, pid) &&
                 AsConfigured(y.srv, pid, steps[k].project, steps[k].config);
        ConfigurationStays(y, step, pid, steps[k].project, steps[k].config);
        assert CreatedAt(steps, k, pid);
      } else {
        NewIsLaunched(y, step, pid);
        LaunchOutcome(y, step.project, step.config);
        assert CreatedAt(steps, n - 1, pid);
      }
    }
  }

  lemma NewIsLaunched(y: System, step: Step, pid: nat)
    requires Reachable(y) && Enabled(y, step) && pid !in y.srv.pipelines && pid in Apply(y, step).srv.pipelines
    ensures step.Launch? && pid == y.srv.nextID
  {
    hide Reachable, RollUp, CreatePipeline, Apply;
    if step.Launch? {
      LaunchOutcome(y, step.project, step.config);
    } else if step.Finish? {
      FinishResolves(y, step.job, step.state);
      FinishKeepsPipelines(y.srv, step.job, step.state);
      FinishApplied(y, step.job, step.state);
    } else {
      OthersKeepPipelines(y, step);
    }
  }

  /**
   * Over any run from the empty server: every pipeline was created by some step, and it and each of
   * its jobs still carry exactly the project, stages, specs and tokens they were created with.
   */
  lemma CarriesConfiguration(steps: seq<Step>, pid: nat)
    requires IsRun(START, steps) && pid in After(START, steps).srv.pipelines
    ensures exists k :: 0 <= k < |steps| && CreatedAt(steps, k, pid) &&
                        AsConfigured(After(START, steps).srv, pid, steps[k].project, steps[k].config)
  {
    hide IsRun, After, AsConfigured, CreatedAt;
    assert steps[..|steps|] == steps;
    ConfiguredAtMoment(steps, pid, |steps|);
  }
}
