/**
 * The control-plane state and what each critical section does to it (pipeline.go, runner_api.go,
 * projects_api.go). Each function is one section run under the server lock, or one write of a
 * job's status under that job's lock.
 */
module Scheduler {
  import opened Options
  import opened Tokens
  import CI = CIConfig

  datatype JobStatus = Created | Pending | Running | Success | Failed | Other(text: string)
  {
    predicate Terminal() { Success? || Failed? }
    predicate Live() { Pending? || Running? }
    predicate HandedOut() { Running? || Terminal() }
  }

  datatype PipelineStatus = PlPending | PlRunning | PlSuccess | PlFailed

  datatype Job = Job(
    token: string, project: nat, pipeline: nat, spec: CI.Job, status: JobStatus,
    artifactSize: int, artifactFilename: string)

  datatype Pipeline = Pipeline(
    project: nat, status: PipelineStatus, jobIDs: seq<nat>, stages: seq<string>, stageIdx: nat)

  datatype State = State(
    nextID: nat, runners: map<string, nat>, projects: set<nat>,
    pipelines: map<nat, Pipeline>, jobs: map<nat, Job>, queue: seq<nat>)

  const INITIAL := State(1, map[], {}, map[], map[], [])

  // ----- Ids -----

  function NewProject(s: State): State {
    s.(nextID := s.nextID + 1, projects := s.projects + {s.nextID})
  }

  function NewRunner(s: State): State {
    s.(nextID := s.nextID + 1, runners := s.runners[NewToken("glrt", s.nextID) := s.nextID])
  }

  function DropRunner(s: State, token: string): State {
    s.(runners := s.runners - {token})
  }

  // ----- Stages -----

  /** The first position of a stage name, or -1. */
  function StageIndex(stages: seq<string>, stage: string): (i: int)
    ensures -1 <= i < |stages|
    ensures i >= 0 ==> stages[i] == stage && forall k :: 0 <= k < i ==> stages[k] != stage
    ensures i < 0 ==> stage !in stages
  {
    if stages == [] then -1
    else if stages[0] == stage then 0
    else
      var i := StageIndex(stages[1..], stage);
      if i < 0 then -1 else i + 1
  }

  predicate Resolve(ids: seq<nat>, jobs: map<nat, Job>) {
    forall id :: id in ids ==> id in jobs
  }

  predicate Waiting(job: Job, stage: string) {
    job.spec.stage == stage && job.status == Created
  }

  /** The jobs of `stage` still waiting, in pipeline order. */
  function Matching(ids: seq<nat>, jobs: map<nat, Job>, stage: string): (m: seq<nat>)
    requires Resolve(ids, jobs)
    ensures forall id :: id in m <==> id in ids && Waiting(jobs[id], stage)
  {
    if ids == [] then []
    else
      var n := |ids| - 1;
      Matching(ids[..n], jobs, stage) + (if Waiting(jobs[ids[n]], stage) then [ids[n]] else [])
  }

  /** The first stage position from `k` on that has a waiting job. */
  function NextStage(ids: seq<nat>, jobs: map<nat, Job>, stages: seq<string>, k: nat): (r: nat)
    requires Resolve(ids, jobs)
    ensures k <= r && (k <= |stages| ==> r <= |stages|) && (k > |stages| ==> r == k)
    ensures r < |stages| ==> Matching(ids, jobs, stages[r]) != []
    ensures forall i :: k <= i < r && i < |stages| ==> Matching(ids, jobs, stages[i]) == []
    decreases |stages| - k
  {
    if k >= |stages| || Matching(ids, jobs, stages[k]) != [] then k
    else NextStage(ids, jobs, stages, k + 1)
  }

  function MarkPending(jobs: map<nat, Job>, ids: seq<nat>): map<nat, Job> {
    map j | j in jobs :: if j in ids then jobs[j].(status := Pending) else jobs[j]
  }

  predicate Listed(s: State, pid: nat) {
    pid in s.pipelines && Resolve(s.pipelines[pid].jobIDs, s.jobs)
  }

  /** enqueueStageLocked: release the next stage that has waiting jobs, or finish. */
  function EnqueueStage(s: State, pid: nat): State
    requires Listed(s, pid)
  {
    var p := s.pipelines[pid];
    var k := NextStage(p.jobIDs, s.jobs, p.stages, p.stageIdx);
    if k < |p.stages| then
      var m := Matching(p.jobIDs, s.jobs, p.stages[k]);
      s.(jobs := MarkPending(s.jobs, m), queue := s.queue + m,
         pipelines := s.pipelines[pid := p.(status := PlRunning, stageIdx := k)])
    else
      var status := if p.status == PlRunning || p.status == PlPending then PlSuccess else p.status;
      s.(pipelines := s.pipelines[pid := p.(status := status, stageIdx := k)])
  }

  // ----- Pipelines -----

  function FreshJob(id: nat, project: nat, pid: nat, spec: CI.Job): Job {
    Job(NewToken("gljt", id), project, pid, spec, Created, 0, "")
  }

  /** `n` consecutive ids. */
  function Block(first: nat, n: nat): (ids: seq<nat>)
    ensures |ids| == n && forall i :: 0 <= i < n ==> ids[i] == first + i
    ensures forall id :: id in ids <==> first <= id < first + n
  {
    if n == 0 then [] else Block(first, n - 1) + [first + n - 1]
  }

  function FreshJobs(first: nat, project: nat, pid: nat, specs: seq<CI.Job>): (m: map<nat, Job>)
    ensures forall j :: j in m <==> first <= j < first + |specs|
    ensures forall j :: j in m ==> m[j] == FreshJob(j, project, pid, specs[j - first])
  {
    map id | id in Block(first, |specs|) :: FreshJob(id, project, pid, specs[id - first])
  }

  /** The state just before the first stage is released. */
  function AddPipeline(s: State, project: nat, config: CI.Config): State {
    var pid := s.nextID;
    var first := pid + 1;
    var n := |config.jobs|;
    s.(nextID := first + n,
       pipelines := s.pipelines[pid := Pipeline(project, PlPending, Block(first, n), config.stages, 0)],
       jobs := s.jobs + FreshJobs(first, project, pid, config.jobs))
  }

  /** createPipelineLocked on a configuration that parsed. */
  function CreatePipeline(s: State, project: nat, config: CI.Config): State {
    EnqueueStage(AddPipeline(s, project, config), s.nextID)
  }

  // ----- The queue -----

  /** dequeueJobLocked: the first queued id that still resolves, and what is left. */
  function Dequeue(queue: seq<nat>, jobs: map<nat, Job>): (Option<nat>, seq<nat>) {
    if queue == [] then (None, [])
    else if queue[0] in jobs then (Some(queue[0]), queue[1..])
    else Dequeue(queue[1..], jobs)
  }

  // ----- Completion -----

  function SetStatus(s: State, j: nat, status: JobStatus): State {
    if j in s.jobs then s.(jobs := s.jobs[j := s.jobs[j].(status := status)]) else s
  }

  function SetPipelineStatus(s: State, project: nat, status: PipelineStatus): State {
    s.(pipelines := map pid | pid in s.pipelines ::
         var p := s.pipelines[pid];
         if p.project == project && p.status == PlPending then p.(status := status) else p)
  }

  /** The stage whose completion a success report checks. */
  function CheckedStage(p: Pipeline): string
    requires p.stages != []
  {
    p.stages[if p.stageIdx < |p.stages| then p.stageIdx else |p.stages| - 1]
  }

  predicate StageDone(s: State, pid: nat)
    requires Listed(s, pid) && s.pipelines[pid].stages != []
  {
    var p := s.pipelines[pid];
    forall id :: id in p.jobIDs && s.jobs[id].spec.stage == CheckedStage(p) ==> s.jobs[id].status.Terminal()
  }

  predicate Rollable(s: State, j: nat) {
    && j in s.jobs
    && (s.jobs[j].pipeline in s.pipelines ==>
          Listed(s, s.jobs[j].pipeline) && s.pipelines[s.jobs[j].pipeline].stages != [])
  }

  /** The state in which a finished stage's pipeline is about to release its next one. */
  function Advanced(s: State, pid: nat): State
    requires pid in s.pipelines
  {
    s.(pipelines := s.pipelines[pid := s.pipelines[pid].(stageIdx := s.pipelines[pid].stageIdx + 1)])
  }

  /** onJobTerminal: roll a finished job up into its pipeline. */
  function RollUp(s: State, j: nat, state: JobStatus): State
    requires Rollable(s, j)
  {
    var pid := s.jobs[j].pipeline;
    if !state.Terminal() || pid !in s.pipelines then s
    else
      var p := s.pipelines[pid];
      if state.Failed? then s.(pipelines := s.pipelines[pid := p.(status := PlFailed)])
      else if !StageDone(s, pid) then s
      else EnqueueStage(Advanced(s, pid), pid)
  }

  // ----- Artifacts -----

  /** The first half of an upload records the archive's name, if the request carries one. */
  function NameArtifact(s: State, j: nat, filename: string): State {
    if j in s.jobs && filename != "" then s.(jobs := s.jobs[j := s.jobs[j].(artifactFilename := filename)]) else s
  }

  /** After the archive is stored its size is recorded, and a default name if there is none. */
  function SizeArtifact(s: State, j: nat, size: nat): State {
    if j !in s.jobs then s
    else
      var job := s.jobs[j];
      var filename := if job.artifactFilename == "" then "artifacts.zip" else job.artifactFilename;
      s.(jobs := s.jobs[j := job.(artifactSize := size, artifactFilename := filename)])
  }

  datatype Dependency = Dependency(id: nat, name: string, token: string, filename: string, size: int)

  /** `c` is a job of an earlier stage that has artifacts and, if the list is explicit, is named in it. */
  predicate Needs(s: State, p: Pipeline, j: nat, c: nat)
    requires j in s.jobs && c in s.jobs
  {
    var mine := StageIndex(p.stages, s.jobs[j].spec.stage);
    var other := StageIndex(p.stages, s.jobs[c].spec.stage);
    var wanted := s.jobs[j].spec.dependencies;
    && c != j && 0 <= other < mine
    && (wanted.Some? ==> s.jobs[c].spec.name in wanted.value)
    && s.jobs[c].artifactSize > 0
  }

  function Advertised(s: State, c: nat): Dependency
    requires c in s.jobs
  {
    var job := s.jobs[c];
    Dependency(c, job.spec.name, job.token,
               if job.artifactFilename == "" then "artifacts.zip" else job.artifactFilename, job.artifactSize)
  }

  /** buildDependenciesLocked, over the first jobs of the pipeline. */
  function Dependencies(s: State, p: Pipeline, j: nat, ids: seq<nat>): seq<Dependency>
    requires j in s.jobs
  {
    if ids == [] then []
    else
      var n := |ids| - 1;
      Dependencies(s, p, j, ids[..n]) +
      (if ids[n] in s.jobs && Needs(s, p, j, ids[n]) then [Advertised(s, ids[n])] else [])
  }

  function DependencyList(s: State, j: nat): seq<Dependency>
    requires j in s.jobs
  {
    if s.jobs[j].pipeline !in s.pipelines then []
    else
      var p := s.pipelines[s.jobs[j].pipeline];
      Dependencies(s, p, j, p.jobIDs)
  }
}
