/**
 * The server object. Each method is one critical section of pipeline.go, runner_api.go or
 * projects_api.go, proved against the function of Scheduler that the runs are built from.
 */
module ControlPlane {
  import opened Options
  import opened Tokens
  import opened Scheduler
  import opened SchedulerRuns
  import CI = CIConfig

  datatype ClaimReply = ClaimForbidden | NoContent | Assigned(job: nat, dependencies: seq<Dependency>)
  datatype UpdateReply = JobNotFound | UpdateForbidden | UpdateAccepted
  datatype LaunchReply = ProjectNotFound | BadConfig(error: CI.ParseError) | Launched(pipeline: nat)

  /** The part of the run invariant the critical sections rely on. */
  ghost predicate Sound(s: State) {
    && (forall pid :: pid in s.pipelines ==> Owns(s.jobs, pid, s.pipelines[pid]))
    && (forall id :: id in s.pipelines || id in s.jobs ==> id < s.nextID)
  }

  lemma EnqueueSound(s: State, pid: nat)
    requires Sound(s) && pid in s.pipelines
    ensures Sound(EnqueueStage(s, pid))
  {
    hide EnqueueStage;
    EnqueueFrame(s, pid);
    EnqueueTouchesOwn(s, pid);
  }

  lemma AddSound(s: State, project: nat, config: CI.Config)
    requires Sound(s) && config.stages != []
    ensures Sound(AddPipeline(s, project, config))
  {
    hide AddPipeline, Block, FreshJob;
    AddPipelineFrame(s, project, config);
    AddPipelineOwns(s, project, config);
    assert forall q :: q in s.pipelines ==> Owns(s.jobs, q, s.pipelines[q]);
  }

  lemma NextStageStep(ids: seq<nat>, js: map<nat, Job>, stages: seq<string>, k: nat)
    requires Resolve(ids, js)
    ensures k < |stages| && Matching(ids, js, stages[k]) == [] ==>
              NextStage(ids, js, stages, k) == NextStage(ids, js, stages, k + 1)
    ensures k >= |stages| || Matching(ids, js, stages[k]) != [] ==> NextStage(ids, js, stages, k) == k
  {
  }

  /** The outcome of a release, by where its search stops. */
  lemma EnqueueAt(s: State, pid: nat)
    requires Listed(s, pid)
    ensures var p, t := s.pipelines[pid], EnqueueStage(s, pid);
            var k := NextStage(p.jobIDs, s.jobs, p.stages, p.stageIdx);
            if k < |p.stages| then
              var m := Matching(p.jobIDs, s.jobs, p.stages[k]);
              t == s.(jobs := MarkPending(s.jobs, m), queue := s.queue + m,
                      pipelines := s.pipelines[pid := p.(stageIdx := k, status := PlRunning)])
            else
              var status := if p.status == PlRunning || p.status == PlPending then PlSuccess else p.status;
              t == s.(pipelines := s.pipelines[pid := p.(stageIdx := k, status := status)])
  {
  }

  ghost function Refreshed(
      ps: map<nat, Pipeline>, done: set<nat>, project: nat, status: PipelineStatus): map<nat, Pipeline>
  {
    map q | q in ps ::
      if q in done && ps[q].project == project && ps[q].status == PlPending then ps[q].(status := status) else ps[q]
  }

  lemma RefreshNone(ps: map<nat, Pipeline>, project: nat, status: PipelineStatus)
    ensures Refreshed(ps, {}, project, status) == ps
    ensures ps.Keys - ps.Keys == {}
    ensures forall s: State :: s.pipelines == ps ==>
              SetPipelineStatus(s, project, status) == s.(pipelines := Refreshed(ps, ps.Keys - {}, project, status))
  {
    assert ps.Keys - {} == ps.Keys;
  }

  lemma RefreshOne(ps: map<nat, Pipeline>, todo: set<nat>, q: nat, project: nat, status: PipelineStatus)
    requires q in todo && todo <= ps.Keys
    ensures var r := Refreshed(ps, ps.Keys - todo, project, status);
            var r' := Refreshed(ps, ps.Keys - (todo - {q}), project, status);
            && q in r && r[q] == ps[q]
            && r' == (if ps[q].project == project && ps[q].status == PlPending
                      then r[q := ps[q].(status := status)] else r)
  {
  }

  datatype FileAction = FileAction(path: string, content: CI.Document)

  const CI_FILE := ".gitlab-ci.yml"

  /** The CI file after a commit, by its last action on that file. */
  function Committed(before: CI.Document, actions: seq<FileAction>): CI.Document {
    if actions == [] then before
    else
      var n := |actions| - 1;
      if actions[n].path == CI_FILE then actions[n].content else Committed(before, actions[..n])
  }

  /** The last action on `.gitlab-ci.yml` decides, and without one nothing changes. */
  lemma {:induction false} CommittedLaw(before: CI.Document, actions: seq<FileAction>, last: int)
    requires -1 <= last < |actions| && (last >= 0 ==> actions[last].path == ".gitlab-ci.yml")
    requires forall i :: last < i < |actions| ==> actions[i].path != ".gitlab-ci.yml"
    ensures Committed(before, actions) == if last >= 0 then actions[last].content else before
  {
    var n := |actions| - 1;
    if last < n {
      CommittedLaw(before, actions[..n], last);
    }
  }

  class Server {
    var nextID: nat
    var runners: map<string, nat>
    var projects: map<nat, CI.Document>
    var pipelines: map<nat, Pipeline>
    var jobs: map<nat, Job>
    var queue: seq<nat>
    var traces: map<nat, seq<bv8>>

    ghost function View(): State
      reads this
    {
      State(nextID, runners, projects.Keys, pipelines, jobs, queue)
    }

    ghost predicate Valid()
      reads this
    {
      Sound(View())
    }

    constructor ()
      ensures Valid() && View() == INITIAL && projects == map[] && traces == map[]
    {
      nextID, runners, projects, pipelines, jobs, queue, traces := 1, map[], map[], map[], map[], [], map[];
    }

    /** A project needs a name and starts without a configuration. */
    method CreateProject(name: string) returns (r: Option<nat>)
      requires Valid()
      modifies this`nextID, this`projects
      ensures Valid()
      ensures name == "" ==> r == None && View() == old(View()) && projects == old(projects)
      ensures name != "" ==>
                && r == Some(old(nextID)) && View() == NewProject(old(View()))
                && projects == old(projects)[old(nextID) := CI.NoText] && nextID == old(nextID) + 1
    {
      if name == "" {
        return None;
      }
      r := Some(nextID);
      projects := projects[nextID := CI.NoText];
      nextID := nextID + 1;
    }

    /** A commit's last action on the CI file, if there is one, becomes the project's configuration. */
    method CommitConfig(project: nat, actions: seq<FileAction>) returns (found: bool)
      requires Valid()
      modifies this`projects
      ensures Valid() && View() == old(View()) && found == (project in old(projects))
      ensures projects == if found then old(projects)[project := Committed(old(projects)[project], actions)]
                          else old(projects)
    {
      found := project in projects;
      if found {
        for i := 0 to |actions|
          invariant projects.Keys == old(projects).Keys
          invariant projects == old(projects)[project := Committed(old(projects)[project], actions[..i])]
        {
          assert actions[..i + 1][..i] == actions[..i];
          if actions[i].path == CI_FILE {
            projects := projects[project := actions[i].content];
          }
        }
        assert actions[..|actions|] == actions;
      }
    }

    method NewRunnerLocked() returns (id: nat, token: string)
      requires Valid()
      modifies this`nextID, this`runners
      ensures Valid() && View() == NewRunner(old(View()))
      ensures id == old(nextID) && nextID == id + 1
      ensures token == NewToken("glrt", id) && runners == old(runners)[token := id]
    {
      id := nextID;
      nextID := nextID + 1;
      token := NewToken("glrt", id);
      runners := runners[token := id];
    }

    method UnregisterRunner(token: string) returns (ok: bool)
      requires Valid()
      modifies this`runners
      ensures Valid() && ok == (token in old(runners)) && View() == DropRunner(old(View()), token)
      ensures runners == old(runners) - {token}
    {
      ok := token in runners;
      if ok {
        runners := runners - {token};
      }
    }

    method EnqueueStageLocked(pid: nat)
      requires Valid() && pid in pipelines
      modifies this`pipelines, this`jobs, this`queue
      ensures View() == EnqueueStage(old(View()), pid) && Valid()
    {
      assert Owns(jobs, pid, pipelines[pid]);
      assert Listed(View(), pid);
      hide Matching, MarkPending, Sound, EnqueueStage, NextStage, StageIndex, Owns, Distinct;
      ghost var s0 := View();
      EnqueueAt(s0, pid);
      EnqueueSound(s0, pid);
      var found := ReleaseFirst(pid);
      var status := pipelines[pid].status;
      if found {
        pipelines := pipelines[pid := pipelines[pid].(status := PlRunning)];
      } else if status == PlRunning || status == PlPending {
        pipelines := pipelines[pid := pipelines[pid].(status := PlSuccess)];
      }
      assert pipelines == EnqueueStage(s0, pid).pipelines;
      assert jobs == EnqueueStage(s0, pid).jobs && queue == EnqueueStage(s0, pid).queue;
      assert View() == EnqueueStage(s0, pid);
    }

    /** The outer loop of enqueueStageLocked: skip empty stages, stop at the first that releases a job. */
    method ReleaseFirst(pid: nat) returns (found: bool)
      requires pid in pipelines && Resolve(pipelines[pid].jobIDs, jobs) && Distinct(pipelines[pid].jobIDs)
      modifies this`pipelines, this`jobs, this`queue
      ensures var p := old(pipelines)[pid];
              var k := NextStage(p.jobIDs, old(jobs), p.stages, p.stageIdx);
              && pipelines == old(pipelines)[pid := p.(stageIdx := k)]
              && (found <==> k < |p.stages|)
              && (if found then
                    var m := Matching(p.jobIDs, old(jobs), p.stages[k]);
                    jobs == MarkPending(old(jobs), m) && queue == old(queue) + m
                  else jobs == old(jobs) && queue == old(queue))
    {
      hide Matching, MarkPending, NextStage, Distinct;
      ghost var ps, js, p := pipelines, jobs, pipelines[pid];
      ghost var k := p.stageIdx;
      MarkNone(js);
      while pipelines[pid].stageIdx < |pipelines[pid].stages|
        invariant jobs == js && queue == old(queue)
        invariant pipelines == ps[pid := p.(stageIdx := k)]
        invariant NextStage(p.jobIDs, js, p.stages, p.stageIdx) == NextStage(p.jobIDs, js, p.stages, k)
        decreases |p.stages| - k
      {
        NextStageStep(p.jobIDs, js, p.stages, k);
        found := ReleaseStage(pid, pipelines[pid].stages[pipelines[pid].stageIdx]);
        if found {
          return;
        }
        pipelines := pipelines[pid := pipelines[pid].(stageIdx := pipelines[pid].stageIdx + 1)];
        k := k + 1;
      }
      NextStageStep(p.jobIDs, js, p.stages, k);
      found := false;
    }

    /** The inner loop of enqueueStageLocked: queue the stage's waiting jobs. */
    method ReleaseStage(pid: nat, stage: string) returns (found: bool)
      requires pid in pipelines && Resolve(pipelines[pid].jobIDs, jobs) && Distinct(pipelines[pid].jobIDs)
      modifies this`jobs, this`queue
      ensures var m := Matching(pipelines[pid].jobIDs, old(jobs), stage);
              jobs == MarkPending(old(jobs), m) && queue == old(queue) + m && (found <==> m != [])
    {
      hide Matching, MarkPending, Distinct;
      found := false;
      var ids := pipelines[pid].jobIDs;
      ghost var js := jobs;
      MarkNone(js);
      NoneMatching(js, stage);
      for i := 0 to |ids|
        invariant jobs == MarkPending(js, Matching(ids[..i], js, stage))
        invariant queue == old(queue) + Matching(ids[..i], js, stage)
        invariant found <==> Matching(ids[..i], js, stage) != []
      {
        var jid := ids[i];
        MatchingStep(ids, js, stage, i);
        if jobs[jid].spec.stage == stage && jobs[jid].status == Created {
          jobs := jobs[jid := jobs[jid].(status := Pending)];
          queue := queue + [jid];
          found := true;
        }
      }
      assert ids[..|ids|] == ids;
    }

    /** handlePipelineCreate on a decoded request. */
    method CreatePipelineLocked(project: nat) returns (r: LaunchReply)
      requires Valid()
      modifies this`nextID, this`pipelines, this`jobs, this`queue
      ensures Valid()
      ensures project !in projects ==> r == ProjectNotFound && View() == old(View())
      ensures project in projects ==>
                match CI.Parse(projects[project])
                case Err(e) => r == BadConfig(e) && View() == old(View())
                case Ok(config) => r == Launched(old(nextID)) && View() == CreatePipeline(old(View()), project, config)
    {
      if project !in projects {
        return ProjectNotFound;
      }
      var parsed := CI.ParseCIConfig(projects[project]);
      if parsed.Err? {
        return BadConfig(parsed.error);
      }
      CI.ParsedIsPopulated(projects[project]);
      var pid := AddPipelineLocked(project, parsed.config);
      EnqueueStageLocked(pid);
      return Launched(pid);
    }

    /** The record and its jobs, before the first stage is released. */
    method AddPipelineLocked(project: nat, config: CI.Config) returns (pid: nat)
      requires Valid() && config.stages != []
      modifies this`nextID, this`pipelines, this`jobs
      ensures View() == AddPipeline(old(View()), project, config)
      ensures Valid() && pid == old(nextID) && pid in pipelines
    {
      ghost var s0 := View();
      AddSound(s0, project, config);
      hide FreshJobs, Sound, Block;
      pid := nextID;
      nextID := nextID + 1;
      var ids := AddJobsLocked(project, pid, config.jobs);
      pipelines := pipelines[pid := Pipeline(project, PlPending, ids, config.stages, 0)];
      assert pipelines == AddPipeline(s0, project, config).pipelines;
      assert jobs == AddPipeline(s0, project, config).jobs;
      assert View() == AddPipeline(s0, project, config);
    }

    method AddJobsLocked(project: nat, pid: nat, specs: seq<CI.Job>) returns (ids: seq<nat>)
      modifies this`nextID, this`jobs
      ensures nextID == old(nextID) + |specs| && ids == Block(old(nextID), |specs|)
      ensures jobs == old(jobs) + FreshJobs(old(nextID), project, pid, specs)
    {
      hide FreshJobs, FreshJob;
      ids := [];
      ghost var first, js := nextID, jobs;
      NoFreshJobs(js, first, project, pid);
      for i := 0 to |specs|
        invariant nextID == first + i && ids == Block(first, i)
        invariant jobs == js + FreshJobs(first, project, pid, specs[..i])
      {
        FreshJobsStep(js, first, project, pid, specs, i);
        jobs := jobs[nextID := FreshJob(nextID, project, pid, specs[i])];
        ids := ids + [nextID];
        nextID := nextID + 1;
      }
      assert specs[..|specs|] == specs;
    }

    method DequeueJobLocked() returns (r: Option<nat>)
      requires Valid()
      modifies this`queue
      ensures Valid() && (r, queue) == Dequeue(old(queue), jobs)
      ensures r.None? ==> queue == [] && forall id :: id in old(queue) ==> id !in jobs
      ensures r.Some? ==> TakenFrom(old(queue), jobs, r.value, queue)
    {
      DequeueLaw(queue, jobs);
      while |queue| > 0
        invariant Dequeue(queue, jobs) == Dequeue(old(queue), jobs)
      {
        var id := queue[0];
        queue := queue[1..];
        if id in jobs {
          return Some(id);
        }
      }
      return None;
    }

    method OnJobTerminal(j: nat, state: JobStatus)
      requires Valid() && j in jobs
      modifies this`pipelines, this`jobs, this`queue
      ensures Valid() && Rollable(old(View()), j) && View() == RollUp(old(View()), j, state)
      ensures state == Failed && jobs[j].pipeline in old(pipelines) ==>
                var pid := jobs[j].pipeline;
                && pipelines == old(pipelines)[pid := old(pipelines)[pid].(status := PlFailed)]
                && jobs == old(jobs) && queue == old(queue)
    {
      if state != Success && state != Failed {
        return;
      }
      var pid := jobs[j].pipeline;
      if pid !in pipelines {
        return;
      }
      var p := pipelines[pid];
      if state == Failed {
        pipelines := pipelines[pid := p.(status := PlFailed)];
        return;
      }
      var stage := p.stages[if p.stageIdx < |p.stages| - 1 then p.stageIdx else |p.stages| - 1];
      for i := 0 to |p.jobIDs|
        invariant forall k :: 0 <= k < i && jobs[p.jobIDs[k]].spec.stage == stage ==>
                    jobs[p.jobIDs[k]].status.Terminal()
      {
        var job := jobs[p.jobIDs[i]];
        if job.spec.stage == stage && job.status != Success && job.status != Failed {
          assert !StageDone(View(), pid);
          return;
        }
      }
      assert StageDone(View(), pid);
      ghost var s0 := View();
      AdvancedSound(s0, pid);
      hide EnqueueStage, Sound, StageDone;
      pipelines := pipelines[pid := p.(stageIdx := p.stageIdx + 1)];
      assert View() == Advanced(s0, pid);
      EnqueueStageLocked(pid);
    }

    method RefreshPipelines(project: nat, status: PipelineStatus)
      requires Valid()
      modifies this`pipelines
      ensures View() == SetPipelineStatus(old(View()), project, status) && Valid()
      ensures pipelines.Keys == old(pipelines).Keys
      ensures forall q :: q in pipelines ==>
                pipelines[q] == if old(pipelines)[q].project == project && old(pipelines)[q].status == PlPending
                                then old(pipelines)[q].(status := status) else old(pipelines)[q]
    {
      RefreshSound(View(), project, status);
      hide Sound;
      ghost var before := pipelines;
      var todo := pipelines.Keys;
      RefreshNone(before, project, status);
      while todo != {}
        invariant todo <= before.Keys
        invariant pipelines == Refreshed(before, before.Keys - todo, project, status)
        decreases |todo|
      {
        var q :| q in todo;
        RefreshOne(before, todo, q, project, status);
        if pipelines[q].project == project && pipelines[q].status == PlPending {
          pipelines := pipelines[q := pipelines[q].(status := status)];
        }
        todo := todo - {q};
      }
    }

    method BuildDependenciesLocked(j: nat) returns (deps: seq<Dependency>)
      requires Valid() && j in jobs
      ensures deps == DependencyList(View(), j)
    {
      deps := [];
      if jobs[j].pipeline !in pipelines {
        return;
      }
      var p := pipelines[jobs[j].pipeline];
      var mine := StageIndex(p.stages, jobs[j].spec.stage);
      if mine < 0 {
        NothingBeforeUnlisted(View(), p, j, p.jobIDs);
        return;
      }
      var wanted := jobs[j].spec.dependencies;
      for i := 0 to |p.jobIDs|
        invariant deps == Dependencies(View(), p, j, p.jobIDs[..i])
      {
        assert p.jobIDs[..i + 1][..i] == p.jobIDs[..i];
        assert deps + [] == deps;
        var c := p.jobIDs[i];
        if c !in jobs || c == j {
          continue;
        }
        var ci := StageIndex(p.stages, jobs[c].spec.stage);
        if ci < 0 || ci >= mine {
          continue;
        }
        if wanted.Some? && jobs[c].spec.name !in wanted.value {
          continue;
        }
        if jobs[c].artifactSize <= 0 {
          continue;
        }
        var filename := jobs[c].artifactFilename;
        if filename == "" {
          filename := "artifacts.zip";
        }
        deps := deps + [Dependency(c, jobs[c].spec.name, jobs[c].token, filename, jobs[c].artifactSize)];
      }
      assert p.jobIDs[..|p.jobIDs|] == p.jobIDs;
    }

    /** A runner's poll, run without interruption: the steps Claim, Start and Refresh of a run. */
    method HandleJobRequest(token: string) returns (r: ClaimReply)
      requires Valid()
      modifies this`queue, this`jobs, this`pipelines
      ensures Valid()
      ensures token !in runners ==> r == ClaimForbidden && View() == old(View())
      ensures token in runners ==>
                var (got, rest) := Dequeue(old(queue), old(jobs));
                var popped := old(View()).(queue := rest);
                if got.None? then r == NoContent && View() == popped
                else
                  && got.value in old(jobs)
                  && View() == SetPipelineStatus(SetStatus(popped, got.value, Running),
                                                 old(jobs)[got.value].project, PlRunning)
                  && got.value in jobs && r == Assigned(got.value, DependencyList(View(), got.value))
      ensures r == NoContent ==> jobs == old(jobs) && forall id :: id in old(queue) ==> id !in jobs
      ensures r.Assigned? ==>
                && TakenFrom(old(queue), old(jobs), r.job, queue)
                && jobs == old(jobs)[r.job := old(jobs)[r.job].(status := Running)]
    {
      if token !in runners {
        return ClaimForbidden;
      }
      var got := DequeueJobLocked();
      if got.None? {
        return NoContent;
      }
      var j := got.value;
      jobs := jobs[j := jobs[j].(status := Running)];
      RefreshPipelines(jobs[j].project, PlRunning);
      var deps := BuildDependenciesLocked(j);
      return Assigned(j, deps);
    }

    /**
     * A runner's status report, run without interruption: the steps Report and Finish of a run. A
     * full trace replaces the stored one; an empty trace or state is ignored.
     */
    method HandleJobUpdate(j: nat, token: string, state: Option<JobStatus>, trace: seq<bv8>) returns (r: UpdateReply)
      requires Valid()
      modifies this`jobs, this`pipelines, this`queue, this`traces
      ensures Valid()
      ensures traces == if r == UpdateAccepted && trace != [] then old(traces)[j := trace] else old(traces)
      ensures j !in old(jobs) ==> r == JobNotFound && View() == old(View())
      ensures j in old(jobs) && !(old(jobs)[j].token == token && token != "") ==>
                r == UpdateForbidden && View() == old(View())
      ensures j in old(jobs) && old(jobs)[j].token == token && token != "" ==>
                && r == UpdateAccepted
                && (if state.None? then View() == old(View())
                    else Rollable(SetStatus(old(View()), j, state.value), j) &&
                         View() == RollUp(SetStatus(old(View()), j, state.value), j, state.value))
      ensures r == UpdateAccepted && state.Some? && !state.value.Success? ==>
                && jobs == old(jobs)[j := old(jobs)[j].(status := state.value)] && queue == old(queue)
                && var pid := jobs[j].pipeline;
                   pipelines == if state.value.Failed? && pid in old(pipelines)
                                then old(pipelines)[pid := old(pipelines)[pid].(status := PlFailed)]
                                else old(pipelines)
    {
      if j !in jobs {
        return JobNotFound;
      }
      if jobs[j].token == "" || jobs[j].token != token {
        return UpdateForbidden;
      }
      if |trace| != 0 {
        traces := traces[j := trace];
      }
      if state.Some? {
        jobs := jobs[j := jobs[j].(status := state.value)];
        OnJobTerminal(j, state.value);
      }
      return UpdateAccepted;
    }
  }

  lemma AdvancedSound(s: State, pid: nat)
    requires Sound(s) && pid in s.pipelines
    ensures Sound(Advanced(s, pid))
  {
    assert forall q :: q in s.pipelines ==> Owns(s.jobs, q, s.pipelines[q]);
  }

  lemma RefreshSound(s: State, project: nat, status: PipelineStatus)
    requires Sound(s)
    ensures Sound(SetPipelineStatus(s, project, status))
  {
    assert forall q :: q in s.pipelines ==> Owns(s.jobs, q, s.pipelines[q]);
  }

  lemma MarkNone(js: map<nat, Job>)
    ensures MarkPending(js, []) == js
  {
  }

  lemma NoneMatching(js: map<nat, Job>, stage: string)
    ensures Matching([], js, stage) == []
  {
  }

  lemma MatchingStep(ids: seq<nat>, js: map<nat, Job>, stage: string, i: nat)
    requires i < |ids| && Resolve(ids, js) && Distinct(ids)
    ensures var m := Matching(ids[..i], js, stage);
            && ids[i] in MarkPending(js, m) && MarkPending(js, m)[ids[i]] == js[ids[i]]
            && Matching(ids[..i + 1], js, stage) == (if Waiting(js[ids[i]], stage) then m + [ids[i]] else m)
            && MarkPending(js, m + [ids[i]]) == MarkPending(js, m)[ids[i] := js[ids[i]].(status := Pending)]
  {
    assert ids[..i + 1][..i] == ids[..i];
    assert ids[i] !in ids[..i];
    assert Matching(ids[..i], js, stage) + [] == Matching(ids[..i], js, stage);
  }

  lemma NoFreshJobs(js: map<nat, Job>, first: nat, project: nat, pid: nat)
    ensures js + FreshJobs(first, project, pid, []) == js
  {
  }

  lemma FreshJobsStep(js: map<nat, Job>, first: nat, project: nat, pid: nat, specs: seq<CI.Job>, i: nat)
    requires i < |specs|
    ensures js + FreshJobs(first, project, pid, specs[..i + 1]) ==
            (js + FreshJobs(first, project, pid, specs[..i]))[first + i := FreshJob(first + i, project, pid, specs[i])]
  {
    hide FreshJob, FreshJobs;
  }

  /** `id` is the first queued id that resolves; what follows it stays. */
  ghost predicate TakenFrom(queue: seq<nat>, jobs: map<nat, Job>, id: nat, rest: seq<nat>) {
    && id in jobs
    && exists i :: 0 <= i < |queue| && queue[i] == id && rest == queue[i + 1..] &&
                   forall k :: 0 <= k < i ==> queue[k] !in jobs
  }

  lemma {:induction false} DequeueLaw(queue: seq<nat>, jobs: map<nat, Job>)
    ensures var (got, rest) := Dequeue(queue, jobs);
            if got.None? then rest == [] && forall id :: id in queue ==> id !in jobs
            else TakenFrom(queue, jobs, got.value, rest)
  {
    if queue != [] && queue[0] !in jobs {
      DequeueLaw(queue[1..], jobs);
      var (got, rest) := Dequeue(queue[1..], jobs);
      if got.Some? {
        var i :| 0 <= i < |queue[1..]| && queue[1..][i] == got.value && rest == queue[1..][i + 1..] &&
                 forall k :: 0 <= k < i ==> queue[1..][k] !in jobs;
        assert queue[i + 1] == got.value && rest == queue[i + 2..];
        assert forall k :: 0 < k < i + 1 ==> queue[k] == queue[1..][k - 1];
      }
    }
  }

  lemma {:induction false} NothingBeforeUnlisted(s: State, p: Pipeline, j: nat, ids: seq<nat>)
    requires j in s.jobs && StageIndex(p.stages, s.jobs[j].spec.stage) < 0
    ensures Dependencies(s, p, j, ids) == []
  {
    if ids != [] {
      NothingBeforeUnlisted(s, p, j, ids[..|ids| - 1]);
    }
  }
}
