/**
 * Whole runs of the control plane: any interleaving of its critical sections, by any number of
 * runners, under the runner assumption stated in `Enabled`.
 */
module SchedulerRuns {
  import opened Tokens
  import opened Scheduler
  import CI = CIConfig

  /**
   * `stored` gives the byte count of each archive in the artifact store, `uploads` those not yet
   * recorded on their job.
   */
  datatype Archives = Archives(stored: map<nat, nat>, uploads: map<nat, nat>)

  /**
   * The server state, plus what is in flight between two critical sections of one request:
   * `claimed` holds the jobs taken from the queue whose status is not yet written, `reports` the
   * status reports whose roll-up has not yet run. `enqueued` and `handed` are the run's history.
   */
  datatype System = System(
    srv: State, claimed: set<nat>, reports: multiset<(nat, JobStatus)>,
    archives: Archives, enqueued: seq<nat>, handed: seq<nat>)

  datatype Step =
    | AddProject
    | AddRunner
    | RemoveRunner(token: string)
    | Launch(project: nat, config: CI.Config)
    | Claim(token: string)
    | Start(job: nat)
    | Refresh(project: nat)
    | Report(job: nat, state: JobStatus)
    | Finish(job: nat, state: JobStatus)
    | StoreArtifact(job: nat, filename: string, size: nat)
    | RecordArtifact(job: nat)

  const START := System(INITIAL, {}, multiset{}, Archives(map[], map[]), [], [])

  /**
   * Which steps may be taken. A runner reports only on a job it was handed, only running, success
   * or failed, possibly several times, and never takes a final state back. Uploads to one job are
   * serialized.
   */
  ghost predicate Enabled(y: System, step: Step) {
    match step
    case Launch(project, config) =>
      project in y.srv.projects && config.stages != []
    case Start(j) => j in y.claimed
    case Report(j, state) =>
      && j in y.srv.jobs
      && y.srv.jobs[j].status.HandedOut()
      && state.HandedOut()
      && (y.srv.jobs[j].status.Terminal() ==> state == y.srv.jobs[j].status)
    case Finish(j, state) => (j, state) in y.reports && Rollable(y.srv, j)
    case StoreArtifact(j, _, _) => j in y.srv.jobs && j !in y.archives.uploads
    case RecordArtifact(j) => j in y.archives.uploads
    case _ => true
  }

  function WithServer(y: System, srv: State): System {
    y.(srv := srv, enqueued := if y.srv.queue <= srv.queue then y.enqueued + srv.queue[|y.srv.queue|..] else y.enqueued)
  }

  function Apply(y: System, step: Step): System
    requires Enabled(y, step)
  {
    match step
    case AddProject => WithServer(y, NewProject(y.srv))
    case AddRunner => WithServer(y, NewRunner(y.srv))
    case RemoveRunner(token) => WithServer(y, DropRunner(y.srv, token))
    case Launch(project, config) =>
      assert Listed(AddPipeline(y.srv, project, config), y.srv.nextID);
      WithServer(y, CreatePipeline(y.srv, project, config))
    case Claim(token) =>
      if token !in y.srv.runners then y
      else
        var (got, rest) := Dequeue(y.srv.queue, y.srv.jobs);
        var popped := y.(srv := y.srv.(queue := rest));
        if got.None? then popped
        else popped.(claimed := y.claimed + {got.value}, handed := y.handed + [got.value])
    case Start(j) => WithServer(y, SetStatus(y.srv, j, Running)).(claimed := y.claimed - {j})
    case Refresh(project) => WithServer(y, SetPipelineStatus(y.srv, project, PlRunning))
    case Report(j, state) =>
      var z := WithServer(y, SetStatus(y.srv, j, state));
      if state.Terminal() then z.(reports := y.reports + multiset{(j, state)}) else z
    case Finish(j, state) =>
      WithServer(y, RollUp(y.srv, j, state)).(reports := y.reports - multiset{(j, state)})
    case StoreArtifact(j, filename, size) =>
      var a := y.archives;
      WithServer(y, NameArtifact(y.srv, j, filename)).(
        archives := Archives(a.stored[j := size], a.uploads[j := size]))
    case RecordArtifact(j) =>
      var a := y.archives;
      WithServer(y, SizeArtifact(y.srv, j, a.uploads[j])).(archives := Archives(a.stored, a.uploads - {j}))
  }

  ghost predicate IsRun(y: System, steps: seq<Step>)
    decreases |steps|
  {
    steps == [] || (Enabled(y, steps[0]) && IsRun(Apply(y, steps[0]), steps[1..]))
  }

  ghost function After(y: System, steps: seq<Step>): System
    requires IsRun(y, steps)
    decreases |steps|
  {
    if steps == [] then y else After(Apply(y, steps[0]), steps[1..])
  }

  // ----- The invariant -----

  ghost predicate Distinct(ids: seq<nat>) {
    forall i, k :: 0 <= i < k < |ids| ==> ids[i] != ids[k]
  }

  /** Every id comes from the shared counter and names one thing. */
  ghost predicate IdsUnique(s: State) {
    && (forall id :: id in s.projects ==> id < s.nextID && id !in s.pipelines && id !in s.jobs)
    && (forall id :: id in s.pipelines ==>
          id < s.nextID && id !in s.jobs && s.pipelines[id].project in s.projects)
    && (forall id :: id in s.jobs ==> id < s.nextID && s.jobs[id].token == NewToken("gljt", id))
    && (forall t :: t in s.runners ==>
          var id := s.runners[t];
          id < s.nextID && t == NewToken("glrt", id) && id !in s.projects && id !in s.pipelines && id !in s.jobs)
  }

  /** Where a job stands relative to its pipeline's stage index `k`. */
  ghost predicate Placed(stages: seq<string>, k: nat, job: Job) {
    var i := StageIndex(stages, job.spec.stage);
    if i < 0 || i > k then job.status == Created
    else if i < k then job.status.Terminal()
    else job.status.Live() || job.status.Terminal()
  }

  ghost predicate Current(p: Pipeline, job: Job) {
    StageIndex(p.stages, job.spec.stage) == p.stageIdx
  }

  ghost predicate JobOk(ps: map<nat, Pipeline>, j: nat, job: Job) {
    && job.pipeline in ps
    && j in ps[job.pipeline].jobIDs
    && job.project == ps[job.pipeline].project
    && Placed(ps[job.pipeline].stages, ps[job.pipeline].stageIdx, job)
  }

  /** Every listed id is a job of this pipeline, and none is listed twice. */
  ghost predicate Owns(js: map<nat, Job>, pid: nat, p: Pipeline) {
    && p.stages != [] && Distinct(p.jobIDs) && Resolve(p.jobIDs, js)
    && forall j :: j in p.jobIDs ==> js[j].pipeline == pid
  }

  /** A populated current stage, unless the pipeline has run off its last stage. */
  ghost predicate Positioned(js: map<nat, Job>, p: Pipeline)
    requires Resolve(p.jobIDs, js)
  {
    && p.status != PlPending
    && (p.status == PlRunning ==> p.stageIdx < |p.stages|)
    && (p.status == PlSuccess ==> p.stageIdx >= |p.stages|)
    && (p.stageIdx < |p.stages| ==> exists j :: j in p.jobIDs && Current(p, js[j]))
  }

  /** Something will still move the pipeline: a live job of its current stage, or a roll-up to run. */
  ghost predicate Awake(js: map<nat, Job>, reports: multiset<(nat, JobStatus)>, p: Pipeline)
    requires Resolve(p.jobIDs, js)
  {
    || (exists j :: j in p.jobIDs && Current(p, js[j]) && js[j].status.Live())
    || (exists r :: r in reports && r.0 in p.jobIDs)
  }

  ghost predicate JobsOk(ps: map<nat, Pipeline>, js: map<nat, Job>) {
    forall j :: j in js ==> JobOk(ps, j, js[j])
  }

  ghost predicate PipelineOk(js: map<nat, Job>, reports: multiset<(nat, JobStatus)>, pid: nat, p: Pipeline) {
    && Owns(js, pid, p)
    && Positioned(js, p)
    && (p.status == PlRunning ==> Awake(js, reports, p))
  }

  ghost predicate PipelinesOk(ps: map<nat, Pipeline>, js: map<nat, Job>, reports: multiset<(nat, JobStatus)>) {
    forall pid :: pid in ps ==> PipelineOk(js, reports, pid, ps[pid])
  }

  /** The queue is the part of the history not yet handed out; pending means queued or just claimed. */
  ghost predicate Queued(y: System) {
    && y.enqueued == y.handed + y.srv.queue
    && Distinct(y.enqueued)
    && (forall j :: j in y.enqueued <==> j in y.srv.jobs && y.srv.jobs[j].status != Created)
    && (forall j :: j in y.srv.queue || j in y.claimed <==> j in y.srv.jobs && y.srv.jobs[j].status == Pending)
    && (forall j :: j in y.claimed ==> j in y.handed)
  }

  ghost predicate Reported(js: map<nat, Job>, reports: multiset<(nat, JobStatus)>) {
    forall r :: r in reports ==> r.0 in js && r.1.Terminal() && js[r.0].status == r.1
  }

  ghost predicate Inv(y: System) {
    && IdsUnique(y.srv)
    && JobsOk(y.srv.pipelines, y.srv.jobs)
    && PipelinesOk(y.srv.pipelines, y.srv.jobs, y.reports)
    && Queued(y)
    && Reported(y.srv.jobs, y.reports)
  }

  // ----- Steps that touch no job and no queue -----

  lemma IdStepsKeepIds(s: State, token: string)
    requires IdsUnique(s)
    ensures IdsUnique(NewProject(s)) && IdsUnique(NewRunner(s)) && IdsUnique(DropRunner(s, token))
  {
    hide NewToken;
  }

  lemma IdStepsKeep(y: System, step: Step)
    requires Inv(y) && (step.AddProject? || step.AddRunner? || step.RemoveRunner?)
    ensures Inv(Apply(y, step))
  {
    hide IdsUnique, JobOk, PipelineOk, Reported;
    IdStepsKeepIds(y.srv, if step.RemoveRunner? then step.token else "");
    assert y.enqueued + [] == y.enqueued;
  }

  /** Best-effort status refresh: no stored pipeline is pending, so nothing changes. */
  lemma RefreshIsIdle(y: System, project: nat, status: PipelineStatus)
    requires Inv(y)
    ensures SetPipelineStatus(y.srv, project, status) == y.srv
  {
    assert SetPipelineStatus(y.srv, project, status).pipelines == y.srv.pipelines by {
      forall pid | pid in y.srv.pipelines
        ensures y.srv.pipelines[pid].status != PlPending
      {
        assert PipelineOk(y.srv.jobs, y.reports, pid, y.srv.pipelines[pid]);
      }
    }
  }

  // ----- A job's status is written -----

  lemma ClaimKeepsQueue(y: System)
    requires Queued(y) && y.srv.queue != []
    ensures var j, rest := y.srv.queue[0], y.srv.queue[1..];
            && j in y.srv.jobs
            && Queued(y.(srv := y.srv.(queue := rest), claimed := y.claimed + {j}, handed := y.handed + [j]))
  {
    var j, rest := y.srv.queue[0], y.srv.queue[1..];
    assert j in y.srv.queue;
    assert y.srv.queue == [j] + rest;
    assert y.handed + [j] + rest == y.enqueued;
  }

  lemma QueueKeepsIds(s: State, queue: seq<nat>)
    requires IdsUnique(s)
    ensures IdsUnique(s.(queue := queue))
  {
  }

  lemma ClaimKeeps(y: System, token: string)
    requires Inv(y)
    ensures Inv(Apply(y, Claim(token)))
  {
    hide JobOk, PipelineOk, IdsUnique, Queued, Reported;
    if token in y.srv.runners && y.srv.queue != [] {
      ClaimKeepsQueue(y);
      QueueKeepsIds(y.srv, y.srv.queue[1..]);
    }
  }

  /** What a runner may write over a status. */
  ghost predicate Writable(js: map<nat, Job>, j: nat, status: JobStatus) {
    && j in js && js[j].status != Created && status.HandedOut()
    && (js[j].status.Terminal() ==> status == js[j].status)
  }

  lemma WriteKeepsPipeline(
      js: map<nat, Job>, reports: multiset<(nat, JobStatus)>, pid: nat, p: Pipeline,
      j: nat, status: JobStatus, reports': multiset<(nat, JobStatus)>)
    requires PipelineOk(js, reports, pid, p) && Writable(js, j, status)
    requires reports <= reports' && (status.Terminal() ==> (j, status) in reports')
    ensures PipelineOk(js[j := js[j].(status := status)], reports', pid, p)
  {
    hide StageIndex;
    var js' := js[j := js[j].(status := status)];
    assert forall i :: i in p.jobIDs ==> (Current(p, js'[i]) <==> Current(p, js[i]));
    if p.status == PlRunning && !exists i :: i in p.jobIDs && Current(p, js'[i]) && js'[i].status.Live() {
      if i :| i in p.jobIDs && Current(p, js[i]) && js[i].status.Live() {
        assert i == j && (j, status) in reports';
      } else {
        var r :| r in reports && r.0 in p.jobIDs;
        assert r in reports';
      }
    }
  }

  lemma WriteKeepsStages(
      ps: map<nat, Pipeline>, js: map<nat, Job>, reports: multiset<(nat, JobStatus)>,
      j: nat, status: JobStatus, reports': multiset<(nat, JobStatus)>)
    requires PipelinesOk(ps, js, reports) && JobsOk(ps, js) && Writable(js, j, status)
    requires reports <= reports' && (status.Terminal() ==> (j, status) in reports')
    ensures PipelinesOk(ps, js[j := js[j].(status := status)], reports')
    ensures JobsOk(ps, js[j := js[j].(status := status)])
  {
    hide PipelineOk, StageIndex;
    forall pid | pid in ps
      ensures PipelineOk(js[j := js[j].(status := status)], reports', pid, ps[pid])
    {
      WriteKeepsPipeline(js, reports, pid, ps[pid], j, status, reports');
    }
    assert JobOk(ps, j, js[j]);
  }

  lemma HandedLeavesQueue(y: System)
    requires Queued(y)
    ensures forall j :: j in y.handed ==> j !in y.srv.queue
  {
    forall a, b | 0 <= a < |y.srv.queue| && 0 <= b < |y.handed|
      ensures y.srv.queue[a] != y.handed[b]
    {
      assert y.enqueued[b] == y.handed[b] && y.enqueued[|y.handed| + a] == y.srv.queue[a];
    }
  }

  lemma WriteKeepsReports(
      js: map<nat, Job>, reports: multiset<(nat, JobStatus)>, j: nat, status: JobStatus,
      reports': multiset<(nat, JobStatus)>)
    requires Reported(js, reports) && Writable(js, j, status)
    requires reports' == (if status.Terminal() then reports + multiset{(j, status)} else reports)
    ensures Reported(js[j := js[j].(status := status)], reports')
  {
  }

  lemma WriteKeepsQueue(y: System, j: nat, status: JobStatus, claimed: set<nat>)
    requires Queued(y) && Writable(y.srv.jobs, j, status)
    requires claimed == y.claimed - {j} && (y.srv.jobs[j].status == Pending ==> j in y.claimed)
    ensures Queued(y.(srv := SetStatus(y.srv, j, status), claimed := claimed))
  {
    HandedLeavesQueue(y);
  }

  lemma WriteKeepsIds(s: State, j: nat, status: JobStatus)
    requires IdsUnique(s)
    ensures IdsUnique(SetStatus(s, j, status))
  {
  }

  lemma StartKeeps(y: System, j: nat)
    requires Inv(y) && Enabled(y, Start(j))
    ensures Inv(Apply(y, Start(j)))
  {
    hide PipelineOk, JobOk, IdsUnique, Reported, StageIndex, Matching, NextStage;
    WriteKeepsStages(y.srv.pipelines, y.srv.jobs, y.reports, j, Running, y.reports);
    WriteKeepsReports(y.srv.jobs, y.reports, j, Running, y.reports);
    WriteKeepsIds(y.srv, j, Running);
    WriteKeepsQueue(y, j, Running, y.claimed - {j});
    assert y.enqueued + [] == y.enqueued;
  }

  lemma ReportKeeps(y: System, j: nat, state: JobStatus)
    requires Inv(y) && Enabled(y, Report(j, state))
    ensures Inv(Apply(y, Report(j, state)))
  {
    hide PipelineOk, JobOk, IdsUnique, Reported, StageIndex, Matching, NextStage;
    var z := Apply(y, Report(j, state));
    WriteKeepsStages(y.srv.pipelines, y.srv.jobs, y.reports, j, state, z.reports);
    WriteKeepsReports(y.srv.jobs, y.reports, j, state, z.reports);
    WriteKeepsIds(y.srv, j, state);
    WriteKeepsQueue(y, j, state, y.claimed);
    assert y.enqueued + [] == y.enqueued;
  }

  // ----- An artifact is uploaded -----

  ghost predicate SameButArtifact(a: Job, b: Job) {
    b == a.(artifactSize := b.artifactSize, artifactFilename := b.artifactFilename)
  }

  lemma ArtifactKeepsPipeline(
      js: map<nat, Job>, reports: multiset<(nat, JobStatus)>, pid: nat, p: Pipeline, j: nat, job: Job)
    requires PipelineOk(js, reports, pid, p) && j in js && SameButArtifact(js[j], job)
    ensures PipelineOk(js[j := job], reports, pid, p)
  {
    hide StageIndex;
    var js' := js[j := job];
    assert forall i :: i in p.jobIDs ==> (Current(p, js'[i]) <==> Current(p, js[i]));
    assert forall i :: i in p.jobIDs ==> js'[i].status == js[i].status;
  }

  lemma ArtifactKeepsStages(
      ps: map<nat, Pipeline>, js: map<nat, Job>, reports: multiset<(nat, JobStatus)>, j: nat, job: Job)
    requires JobsOk(ps, js) && PipelinesOk(ps, js, reports) && j in js && SameButArtifact(js[j], job)
    ensures JobsOk(ps, js[j := job]) && PipelinesOk(ps, js[j := job], reports)
  {
    hide StageIndex, PipelineOk;
    forall pid | pid in ps
      ensures PipelineOk(js[j := job], reports, pid, ps[pid])
    {
      ArtifactKeepsPipeline(js, reports, pid, ps[pid], j, job);
    }
    assert JobOk(ps, j, js[j]);
  }

  lemma ArtifactKeepsRest(y: System, j: nat, job: Job)
    requires Queued(y) && IdsUnique(y.srv) && Reported(y.srv.jobs, y.reports)
    requires j in y.srv.jobs && SameButArtifact(y.srv.jobs[j], job)
    ensures var z := y.(srv := y.srv.(jobs := y.srv.jobs[j := job]));
            Queued(z) && IdsUnique(z.srv) && Reported(z.srv.jobs, z.reports)
  {
    hide NewToken;
  }

  lemma ArtifactFrame(y: System, step: Step)
    requires Enabled(y, step) && (step.StoreArtifact? || step.RecordArtifact?)
    ensures var z, j := Apply(y, step), step.job;
            && z == y.(srv := z.srv, archives := z.archives)
            && (z.srv == y.srv ||
                (j in y.srv.jobs && j in z.srv.jobs && SameButArtifact(y.srv.jobs[j], z.srv.jobs[j]) &&
                 z.srv == y.srv.(jobs := y.srv.jobs[j := z.srv.jobs[j]])))
  {
    assert y.enqueued + [] == y.enqueued;
  }

  lemma ArtifactKeeps(y: System, step: Step)
    requires Inv(y) && Enabled(y, step) && (step.StoreArtifact? || step.RecordArtifact?)
    ensures Inv(Apply(y, step))
  {
    hide PipelineOk, JobOk, IdsUnique, Reported, StageIndex, Apply, SameButArtifact;
    var z, j := Apply(y, step), step.job;
    ArtifactFrame(y, step);
    if z.srv != y.srv {
      ArtifactKeepsStages(y.srv.pipelines, y.srv.jobs, y.reports, j, z.srv.jobs[j]);
      ArtifactKeepsRest(y, j, z.srv.jobs[j]);
    }
  }

  // ----- A stage is released -----

  /** Before a release: jobs placed before the stage index are done, all others still wait. */
  ghost predicate Ready(js: map<nat, Job>, p: Pipeline)
    requires Resolve(p.jobIDs, js)
  {
    forall j :: j in p.jobIDs ==>
      var i := StageIndex(p.stages, js[j].spec.stage);
      if 0 <= i < p.stageIdx then js[j].status.Terminal() else js[j].status == Created
  }

  /** A job placed for stage index `from` is placed for `k` once no stage between has it waiting. */
  lemma PlacedLater(stages: seq<string>, from: nat, k: nat, stage: string, before: JobStatus, after: JobStatus)
    requires var i := StageIndex(stages, stage);
             if 0 <= i < from then before.Terminal() else before == Created
    requires forall q :: from <= q < k && q < |stages| && stages[q] == stage ==> before != Created
    requires after == if k < |stages| && stages[k] == stage && before == Created then Pending else before
    requires from <= k
    ensures var i := StageIndex(stages, stage);
            if i < 0 || i > k then after == Created
            else if i < k then after.Terminal()
            else after.Live() || after.Terminal()
  {
    var i := StageIndex(stages, stage);
    hide StageIndex;
    if 0 <= i {
      assert stages[i] == stage;
    }
  }

  lemma EnqueuePlacesJob(s: State, pid: nat, j: nat)
    requires Listed(s, pid) && Ready(s.jobs, s.pipelines[pid]) && j in s.pipelines[pid].jobIDs
    ensures var t := EnqueueStage(s, pid);
            j in t.jobs && Placed(t.pipelines[pid].stages, t.pipelines[pid].stageIdx, t.jobs[j])
  {
    var p, t := s.pipelines[pid], EnqueueStage(s, pid);
    var k := NextStage(p.jobIDs, s.jobs, p.stages, p.stageIdx);
    hide Matching, NextStage, StageIndex;
    forall q | p.stageIdx <= q < k && q < |p.stages| && p.stages[q] == s.jobs[j].spec.stage
      ensures s.jobs[j].status != Created
    {
      assert j !in Matching(p.jobIDs, s.jobs, p.stages[q]);
    }
    PlacedLater(p.stages, p.stageIdx, k, s.jobs[j].spec.stage, s.jobs[j].status, t.jobs[j].status);
  }

  lemma EnqueuePositions(s: State, pid: nat)
    requires Listed(s, pid) && Owns(s.jobs, pid, s.pipelines[pid]) && Ready(s.jobs, s.pipelines[pid])
    ensures var t := EnqueueStage(s, pid);
            && Owns(t.jobs, pid, t.pipelines[pid])
            && PipelineOk(t.jobs, multiset{}, pid, t.pipelines[pid])
  {
    var p, t := s.pipelines[pid], EnqueueStage(s, pid);
    var k := NextStage(p.jobIDs, s.jobs, p.stages, p.stageIdx);
    if k < |p.stages| {
      var j := Matching(p.jobIDs, s.jobs, p.stages[k])[0];
      assert j in Matching(p.jobIDs, s.jobs, p.stages[k]);
      EnqueuePlacesJob(s, pid, j);
      assert Current(t.pipelines[pid], t.jobs[j]) && t.jobs[j].status.Live();
    }
  }

  lemma {:induction false} MatchingDistinct(ids: seq<nat>, jobs: map<nat, Job>, stage: string)
    requires Distinct(ids) && Resolve(ids, jobs)
    ensures Distinct(Matching(ids, jobs, stage))
  {
    if ids != [] {
      var n := |ids| - 1;
      MatchingDistinct(ids[..n], jobs, stage);
      assert forall id :: id in Matching(ids[..n], jobs, stage) ==> id in ids[..n];
    }
  }

  ghost predicate Member(ps: map<nat, Pipeline>, j: nat, job: Job) {
    job.pipeline in ps && j in ps[job.pipeline].jobIDs && job.project == ps[job.pipeline].project
  }

  /** All of JobsOk and PipelinesOk but for one pipeline, which is ready for a release. */
  ghost predicate ReadyAt(s: State, reports: multiset<(nat, JobStatus)>, pid: nat) {
    && Listed(s, pid) && Owns(s.jobs, pid, s.pipelines[pid]) && Ready(s.jobs, s.pipelines[pid])
    && (forall q :: q in s.pipelines && q != pid ==> PipelineOk(s.jobs, reports, q, s.pipelines[q]))
    && (forall j :: j in s.jobs ==>
          Member(s.pipelines, j, s.jobs[j]) &&
          (s.jobs[j].pipeline != pid ==> JobOk(s.pipelines, j, s.jobs[j])))
  }

  lemma OtherPipelineKept(
      js: map<nat, Job>, js': map<nat, Job>, reports: multiset<(nat, JobStatus)>, q: nat, p: Pipeline)
    requires PipelineOk(js, reports, q, p)
    requires forall j :: j in p.jobIDs ==> j in js' && js'[j] == js[j]
    ensures PipelineOk(js', reports, q, p)
  {
    assert forall j :: j in p.jobIDs ==> (Current(p, js'[j]) <==> Current(p, js[j]));
  }

  lemma ReleaseKeepsStages(s: State, reports: multiset<(nat, JobStatus)>, pid: nat)
    requires ReadyAt(s, reports, pid)
    ensures var t := EnqueueStage(s, pid);
            JobsOk(t.pipelines, t.jobs) && PipelinesOk(t.pipelines, t.jobs, reports)
  {
    hide Placed, StageIndex, Positioned, Awake, Ready, Owns, PipelineOk;
    var t := EnqueueStage(s, pid);
    EnqueueTouchesOwn(s, pid);
    EnqueuePositions(s, pid);
    forall q | q in t.pipelines
      ensures PipelineOk(t.jobs, reports, q, t.pipelines[q])
    {
      if q == pid {
        MoreReports(t.jobs, reports, pid, t.pipelines[pid]);
      } else {
        assert PipelineOk(s.jobs, reports, q, s.pipelines[q]);
        OwnedElsewhere(s, reports, pid, q);
        OtherPipelineKept(s.jobs, t.jobs, reports, q, s.pipelines[q]);
      }
    }
    forall j | j in t.jobs
      ensures JobOk(t.pipelines, j, t.jobs[j])
    {
      assert Member(s.pipelines, j, s.jobs[j]);
      if s.jobs[j].pipeline == pid {
        EnqueuePlacesJob(s, pid, j);
      }
    }
  }

  lemma EnqueueTouchesOwn(s: State, pid: nat)
    requires Listed(s, pid)
    ensures forall j :: j in s.jobs && j !in s.pipelines[pid].jobIDs ==> EnqueueStage(s, pid).jobs[j] == s.jobs[j]
    ensures forall q :: q in s.pipelines && q != pid ==> EnqueueStage(s, pid).pipelines[q] == s.pipelines[q]
    ensures EnqueueStage(s, pid).pipelines[pid].project == s.pipelines[pid].project
    ensures EnqueueStage(s, pid).pipelines[pid].jobIDs == s.pipelines[pid].jobIDs
    ensures EnqueueStage(s, pid).pipelines[pid].stages == s.pipelines[pid].stages
    ensures EnqueueStage(s, pid).jobs.Keys == s.jobs.Keys
    ensures EnqueueStage(s, pid).pipelines.Keys == s.pipelines.Keys
    ensures forall j :: j in s.jobs ==> var t := EnqueueStage(s, pid).jobs[j];
              t.pipeline == s.jobs[j].pipeline && t.project == s.jobs[j].project
  {
  }

  lemma OwnedElsewhere(s: State, reports: multiset<(nat, JobStatus)>, pid: nat, q: nat)
    requires Listed(s, pid) && Owns(s.jobs, pid, s.pipelines[pid]) && q in s.pipelines && q != pid
    requires PipelineOk(s.jobs, reports, q, s.pipelines[q])
    ensures forall j :: j in s.pipelines[q].jobIDs ==> j in s.jobs && j !in s.pipelines[pid].jobIDs
  {
  }

  lemma MoreReports(js: map<nat, Job>, reports: multiset<(nat, JobStatus)>, pid: nat, p: Pipeline)
    requires PipelineOk(js, multiset{}, pid, p)
    ensures PipelineOk(js, reports, pid, p)
  {
  }

  lemma DistinctAppend(a: seq<nat>, b: seq<nat>)
    requires Distinct(a) && Distinct(b) && forall x :: x in b ==> x !in a
    ensures Distinct(a + b)
  {
    assert forall i :: 0 <= i < |a| ==> a[i] in a;
    assert forall i :: 0 <= i < |b| ==> b[i] in b;
  }

  /** What a release does to statuses: the released jobs become pending, nothing else changes. */
  lemma QueuedMarks(y: System, pid: nat)
    requires Listed(y.srv, pid)
    ensures var s, t, p := y.srv, EnqueueStage(y.srv, pid), y.srv.pipelines[pid];
            var k := NextStage(p.jobIDs, s.jobs, p.stages, p.stageIdx);
            var m := if k < |p.stages| then Matching(p.jobIDs, s.jobs, p.stages[k]) else [];
            && t.queue == s.queue + m && t.jobs.Keys == s.jobs.Keys
            && forall j :: j in s.jobs ==> t.jobs[j].status == if j in m then Pending else s.jobs[j].status
  {
    hide StageIndex;
    assert y.srv.queue + [] == y.srv.queue;
  }

  /** Enqueueing jobs that were waiting: each enters the history for the first time. */
  lemma QueueExtends(y: System, t: State, m: seq<nat>)
    requires Queued(y) && Distinct(m) && t.queue == y.srv.queue + m && t.jobs.Keys == y.srv.jobs.Keys
    requires forall j :: j in m ==> j in y.srv.jobs && y.srv.jobs[j].status == Created
    requires forall j :: j in y.srv.jobs ==> t.jobs[j].status == if j in m then Pending else y.srv.jobs[j].status
    ensures Queued(WithServer(y, t))
  {
    var z := WithServer(y, t);
    assert z.enqueued == y.enqueued + m;
    DistinctAppend(y.enqueued, m);
    hide Distinct;
    assert z.enqueued == z.handed + t.queue;
    assert forall j :: j in t.jobs <==> j in y.srv.jobs;
    assert forall j :: j in t.queue <==> j in y.srv.queue || j in m;
    assert forall j :: j in z.enqueued <==> j in y.enqueued || j in m;
  }

  /** A release appends waiting jobs to the queue and to the history, each for the first time. */
  lemma ReleaseKeepsQueue(y: System, pid: nat)
    requires Queued(y) && Listed(y.srv, pid) && Distinct(y.srv.pipelines[pid].jobIDs)
    ensures Queued(WithServer(y, EnqueueStage(y.srv, pid)))
  {
    hide Queued, EnqueueStage, Distinct, StageIndex, NextStage;
    var p := y.srv.pipelines[pid];
    var k := NextStage(p.jobIDs, y.srv.jobs, p.stages, p.stageIdx);
    QueuedMarks(y, pid);
    if k < |p.stages| {
      var m := Matching(p.jobIDs, y.srv.jobs, p.stages[k]);
      MatchingDistinct(p.jobIDs, y.srv.jobs, p.stages[k]);
      QueueExtends(y, EnqueueStage(y.srv, pid), m);
    } else {
      NoneDistinct();
      QueueExtends(y, EnqueueStage(y.srv, pid), []);
    }
  }

  lemma NoneDistinct()
    ensures Distinct([])
  {
  }

  // ----- A report is rolled up -----

  lemma OtherReportSpent(
      js: map<nat, Job>, reports: multiset<(nat, JobStatus)>, q: nat, p: Pipeline, r: (nat, JobStatus))
    requires PipelineOk(js, reports, q, p) && r.0 in js && js[r.0].pipeline != q
    ensures PipelineOk(js, reports - multiset{r}, q, p)
  {
    if x :| x in reports && x.0 in p.jobIDs {
      assert x != r;
      assert x in reports - multiset{r};
    }
  }

  /** A stage that is not done still has a live job, so its roll-up may be spent. */
  lemma LiveStageAwake(s: State, reports: multiset<(nat, JobStatus)>, pid: nat)
    requires JobsOk(s.pipelines, s.jobs) && pid in s.pipelines
    requires PipelineOk(s.jobs, reports, pid, s.pipelines[pid]) && !StageDone(s, pid)
    ensures PipelineOk(s.jobs, multiset{}, pid, s.pipelines[pid])
  {
    var p := s.pipelines[pid];
    if p.status == PlRunning {
      var id :| id in p.jobIDs && s.jobs[id].spec.stage == CheckedStage(p) && !s.jobs[id].status.Terminal();
      var c :| c in p.jobIDs && Current(p, s.jobs[c]);
      assert p.stages[p.stageIdx] == s.jobs[c].spec.stage;
      assert JobOk(s.pipelines, id, s.jobs[id]) && Current(p, s.jobs[id]);
    }
  }

  lemma DoneStageReady(s: State, reports: multiset<(nat, JobStatus)>, pid: nat)
    requires JobsOk(s.pipelines, s.jobs) && pid in s.pipelines
    requires PipelineOk(s.jobs, reports, pid, s.pipelines[pid]) && StageDone(s, pid)
    ensures var p := s.pipelines[pid];
            Ready(s.jobs, p.(stageIdx := p.stageIdx + 1))
  {
    var p := s.pipelines[pid];
    forall j | j in p.jobIDs
      ensures var i := StageIndex(p.stages, s.jobs[j].spec.stage);
              if 0 <= i < p.stageIdx + 1 then s.jobs[j].status.Terminal() else s.jobs[j].status == Created
    {
      assert JobOk(s.pipelines, j, s.jobs[j]);
    }
  }

  lemma OthersSpent(s: State, reports: multiset<(nat, JobStatus)>, r: (nat, JobStatus))
    requires PipelinesOk(s.pipelines, s.jobs, reports) && r.0 in s.jobs
    ensures forall q :: q in s.pipelines && q != s.jobs[r.0].pipeline ==>
              PipelineOk(s.jobs, reports - multiset{r}, q, s.pipelines[q])
  {
    forall q | q in s.pipelines && q != s.jobs[r.0].pipeline
      ensures PipelineOk(s.jobs, reports - multiset{r}, q, s.pipelines[q])
    {
      OtherReportSpent(s.jobs, reports, q, s.pipelines[q], r);
    }
  }

  lemma FinishKeepsStages(s: State, reports: multiset<(nat, JobStatus)>, j: nat, state: JobStatus)
    requires JobsOk(s.pipelines, s.jobs) && PipelinesOk(s.pipelines, s.jobs, reports)
    requires j in s.jobs && Rollable(s, j) && state.Terminal()
    ensures var t := RollUp(s, j, state);
            && JobsOk(t.pipelines, t.jobs)
            && PipelinesOk(t.pipelines, t.jobs, reports - multiset{(j, state)})
  {
    hide Placed, StageIndex, Positioned, Awake, EnqueueStage, StageDone, PipelineOk, ReadyAt, Ready, Owns;
    var left := reports - multiset{(j, state)};
    var pid := s.jobs[j].pipeline;
    assert JobOk(s.pipelines, j, s.jobs[j]);
    OthersSpent(s, reports, (j, state));
    if state.Failed? {
      FailedPipelineOk(s, left, reports, pid);
    } else if !StageDone(s, pid) {
      LiveStageAwake(s, reports, pid);
      MoreReports(s.jobs, left, pid, s.pipelines[pid]);
    } else {
      AdvanceReady(s, left, reports, pid);
      ReleaseKeepsStages(Advanced(s, pid), left, pid);
    }
  }

  lemma FailedPipelineOk(s: State, left: multiset<(nat, JobStatus)>, reports: multiset<(nat, JobStatus)>, pid: nat)
    requires JobsOk(s.pipelines, s.jobs) && pid in s.pipelines
    requires PipelineOk(s.jobs, reports, pid, s.pipelines[pid])
    requires forall q :: q in s.pipelines && q != pid ==> PipelineOk(s.jobs, left, q, s.pipelines[q])
    ensures var ps := s.pipelines[pid := s.pipelines[pid].(status := PlFailed)];
            JobsOk(ps, s.jobs) && PipelinesOk(ps, s.jobs, left)
  {
    var p' := s.pipelines[pid].(status := PlFailed);
    assert PipelineOk(s.jobs, left, pid, p') by {
      assert forall j :: j in p'.jobIDs ==> (Current(p', s.jobs[j]) <==> Current(s.pipelines[pid], s.jobs[j]));
    }
    forall j | j in s.jobs
      ensures JobOk(s.pipelines[pid := p'], j, s.jobs[j])
    {
      assert JobOk(s.pipelines, j, s.jobs[j]);
    }
  }

  lemma AdvanceReady(
      s: State, left: multiset<(nat, JobStatus)>, reports: multiset<(nat, JobStatus)>, pid: nat)
    requires JobsOk(s.pipelines, s.jobs) && pid in s.pipelines
    requires PipelineOk(s.jobs, reports, pid, s.pipelines[pid]) && StageDone(s, pid)
    requires forall q :: q in s.pipelines && q != pid ==> PipelineOk(s.jobs, left, q, s.pipelines[q])
    ensures ReadyAt(Advanced(s, pid), left, pid)
  {
    hide Placed, StageIndex, Positioned, Awake, Ready;
    DoneStageReady(s, reports, pid);
    var ps := Advanced(s, pid).pipelines;
    forall j | j in s.jobs
      ensures Member(ps, j, s.jobs[j]) && (s.jobs[j].pipeline != pid ==> JobOk(ps, j, s.jobs[j]))
    {
      assert JobOk(s.pipelines, j, s.jobs[j]);
    }
  }

  /** A release changes waiting jobs of its pipeline to pending, and that pipeline's record. */
  lemma EnqueueFrame(s: State, pid: nat)
    requires Listed(s, pid)
    ensures var t := EnqueueStage(s, pid);
            && t.jobs.Keys == s.jobs.Keys && t.pipelines.Keys == s.pipelines.Keys
            && t.nextID == s.nextID && t.runners == s.runners && t.projects == s.projects
            && (forall i :: i in s.jobs ==>
                  t.jobs[i] == s.jobs[i] ||
                  (s.jobs[i].status == Created && t.jobs[i] == s.jobs[i].(status := Pending)))
            && (forall q :: q in s.pipelines ==> t.pipelines[q].project == s.pipelines[q].project)
  {
  }

  lemma EnqueueKeepsIds(s: State, pid: nat, reports: multiset<(nat, JobStatus)>)
    requires Listed(s, pid) && IdsUnique(s) && Reported(s.jobs, reports)
    ensures IdsUnique(EnqueueStage(s, pid)) && Reported(EnqueueStage(s, pid).jobs, reports)
  {
    hide EnqueueStage, NewToken;
    EnqueueFrame(s, pid);
  }

  lemma FinishKeepsQueue(y: System, j: nat, state: JobStatus)
    requires Queued(y) && IdsUnique(y.srv) && Reported(y.srv.jobs, y.reports)
    requires JobsOk(y.srv.pipelines, y.srv.jobs) && PipelinesOk(y.srv.pipelines, y.srv.jobs, y.reports)
    requires j in y.srv.jobs && Rollable(y.srv, j)
    ensures var t := RollUp(y.srv, j, state);
            IdsUnique(t) && Queued(WithServer(y, t)) && Reported(t.jobs, y.reports)
  {
    hide Placed, StageIndex, Positioned, Awake, EnqueueStage, StageDone, Queued, IdsUnique, Reported;
    assert JobOk(y.srv.pipelines, j, y.srv.jobs[j]);
    var pid := y.srv.jobs[j].pipeline;
    assert PipelineOk(y.srv.jobs, y.reports, pid, y.srv.pipelines[pid]);
    if state.Success? && StageDone(y.srv, pid) {
      var z := y.(srv := Advanced(y.srv, pid));
      PipelinesKeepQueue(y, z.srv.pipelines);
      ReleaseKeepsQueue(z, pid);
      EnqueueKeepsIds(z.srv, pid, y.reports);
    } else {
      PipelinesKeepQueue(y, RollUp(y.srv, j, state).pipelines);
    }
  }

  /** Queue, ids and reports do not depend on a pipeline's status or stage index. */
  lemma PipelinesKeepQueue(y: System, ps: map<nat, Pipeline>)
    requires Queued(y) && IdsUnique(y.srv)
    requires ps.Keys == y.srv.pipelines.Keys
    requires forall pid :: pid in ps ==> ps[pid].project == y.srv.pipelines[pid].project
    ensures var z := y.(srv := y.srv.(pipelines := ps));
            Queued(z) && IdsUnique(z.srv) && WithServer(y, z.srv) == z
  {
    assert y.enqueued + [] == y.enqueued;
  }

  lemma FinishKeeps(y: System, j: nat, state: JobStatus)
    requires Inv(y) && Enabled(y, Finish(j, state))
    ensures Inv(Apply(y, Finish(j, state)))
  {
    hide PipelineOk, JobOk, IdsUnique, StageIndex, Matching, NextStage, RollUp;
    FinishKeepsStages(y.srv, y.reports, j, state);
    FinishKeepsQueue(y, j, state);
  }

  // ----- A pipeline is created -----

  /** A creation takes a block of fresh ids: one for the pipeline, then one for each job in order. */
  lemma AddPipelineFrame(s: State, project: nat, config: CI.Config)
    ensures var t, pid := AddPipeline(s, project, config), s.nextID;
            && t.nextID == pid + 1 + |config.jobs|
            && t.runners == s.runners && t.projects == s.projects && t.queue == s.queue
            && t.pipelines ==
               s.pipelines[pid := Pipeline(project, PlPending, Block(pid + 1, |config.jobs|), config.stages, 0)]
            && (forall j :: j in t.jobs <==> j in s.jobs || pid < j < t.nextID)
            && (forall j :: j in t.jobs && pid < j < t.nextID ==>
                  t.jobs[j] == FreshJob(j, project, pid, config.jobs[j - pid - 1]))
            && (forall j :: j in t.jobs && !(pid < j < t.nextID) ==> t.jobs[j] == s.jobs[j])
  {
    hide NewToken, FreshJob, Block, FreshJobs;
  }

  lemma AddPipelineReady(s: State, reports: multiset<(nat, JobStatus)>, project: nat, config: CI.Config)
    requires JobsOk(s.pipelines, s.jobs) && PipelinesOk(s.pipelines, s.jobs, reports) && IdsUnique(s)
    requires config.stages != []
    ensures ReadyAt(AddPipeline(s, project, config), reports, s.nextID)
  {
    hide Placed, StageIndex, Positioned, Awake, AddPipeline, NewToken, JobOk, PipelineOk, Owns, Ready, IdsUnique, Block;
    AddPipelineFrame(s, project, config);
    AddPipelineOwns(s, project, config);
    var t, pid := AddPipeline(s, project, config), s.nextID;
    forall q | q in t.pipelines && q != pid
      ensures PipelineOk(t.jobs, reports, q, t.pipelines[q])
    {
      ListedOlder(s, reports, q);
      OtherPipelineKept(s.jobs, t.jobs, reports, q, s.pipelines[q]);
    }
    forall j | j in t.jobs
      ensures Member(t.pipelines, j, t.jobs[j])
      ensures t.jobs[j].pipeline != pid ==> JobOk(t.pipelines, j, t.jobs[j])
    {
      if !(pid < j < t.nextID) {
        PipelineIdFresh(s);
        OlderJobOk(s, t.pipelines, pid, j);
      }
    }
  }

  lemma PipelineIdFresh(s: State)
    requires IdsUnique(s)
    ensures s.nextID !in s.pipelines
  {
  }

  lemma AddPipelineOwns(s: State, project: nat, config: CI.Config)
    requires config.stages != []
    ensures var t, pid := AddPipeline(s, project, config), s.nextID;
            Listed(t, pid) && Owns(t.jobs, pid, t.pipelines[pid]) && Ready(t.jobs, t.pipelines[pid])
  {
    hide AddPipeline, NewToken;
    AddPipelineFrame(s, project, config);
  }

  lemma ListedOlder(s: State, reports: multiset<(nat, JobStatus)>, q: nat)
    requires IdsUnique(s) && q in s.pipelines && PipelineOk(s.jobs, reports, q, s.pipelines[q])
    ensures forall j :: j in s.pipelines[q].jobIDs ==> j in s.jobs && j < s.nextID
  {
  }

  lemma OlderJobOk(s: State, ps: map<nat, Pipeline>, pid: nat, j: nat)
    requires JobsOk(s.pipelines, s.jobs) && j in s.jobs && pid !in s.pipelines
    requires pid in ps && ps == s.pipelines[pid := ps[pid]]
    ensures s.jobs[j].pipeline != pid && Member(ps, j, s.jobs[j]) && JobOk(ps, j, s.jobs[j])
  {
    assert JobOk(s.pipelines, j, s.jobs[j]);
  }

  lemma AddPipelineKeepsIds(s: State, project: nat, config: CI.Config)
    requires IdsUnique(s) && project in s.projects
    ensures IdsUnique(AddPipeline(s, project, config))
  {
    hide AddPipeline, NewToken;
    AddPipelineFrame(s, project, config);
  }

  lemma AddPipelineKeepsQueue(y: System, project: nat, config: CI.Config)
    requires Queued(y) && IdsUnique(y.srv) && Reported(y.srv.jobs, y.reports)
    ensures var t := AddPipeline(y.srv, project, config);
            Queued(y.(srv := t)) && Reported(t.jobs, y.reports)
  {
    hide AddPipeline, NewToken;
    AddPipelineFrame(y.srv, project, config);
    assert forall j :: j in y.srv.jobs ==> j < y.srv.nextID;
  }

  lemma LaunchKeeps(y: System, project: nat, config: CI.Config)
    requires Inv(y) && Enabled(y, Launch(project, config))
    ensures Inv(Apply(y, Launch(project, config)))
  {
    hide PipelineOk, JobOk, IdsUnique, StageIndex, Matching, NextStage, EnqueueStage, Reported, Ready, Placed;
    var t, pid := AddPipeline(y.srv, project, config), y.srv.nextID;
    AddPipelineReady(y.srv, y.reports, project, config);
    AddPipelineKeepsIds(y.srv, project, config);
    AddPipelineKeepsQueue(y, project, config);
    ReleaseKeepsStages(t, y.reports, pid);
    ReleaseKeepsQueue(y.(srv := t), pid);
    EnqueueKeepsIds(t, pid, y.reports);
  }

  // ----- Every run -----

  lemma StepKeeps(y: System, step: Step)
    requires Inv(y) && Enabled(y, step)
    ensures Inv(Apply(y, step))
  {
    hide PipelineOk, JobOk, IdsUnique, StageIndex, EnqueueStage, Reported, Apply;
    match step
    case Launch(project, config) => LaunchKeeps(y, project, config);
    case Claim(token) => ClaimKeeps(y, token);
    case Start(j) => StartKeeps(y, j);
    case Refresh(project) => RefreshKeeps(y, project);
    case Report(j, state) => ReportKeeps(y, j, state);
    case Finish(j, state) => FinishKeeps(y, j, state);
    case StoreArtifact(_, _, _) => ArtifactKeeps(y, step);
    case RecordArtifact(_) => ArtifactKeeps(y, step);
    case _ => IdStepsKeep(y, step);
  }

  lemma RefreshKeeps(y: System, project: nat)
    requires Inv(y)
    ensures Apply(y, Refresh(project)) == y
  {
    RefreshIsIdle(y, project, PlRunning);
    assert y.enqueued + [] == y.enqueued;
  }

  lemma {:induction false} RunKeeps(y: System, steps: seq<Step>)
    requires Inv(y) && IsRun(y, steps)
    ensures Inv(After(y, steps))
    decreases |steps|
  {
    hide Inv;
    if steps != [] {
      StepKeeps(y, steps[0]);
      RunKeeps(Apply(y, steps[0]), steps[1..]);
    }
  }

  lemma StartsWell()
    ensures Inv(START)
  {
  }
}
