/** What a claimed job is told about the artifacts of earlier stages. */
module SchedulerDependencies {
  import opened Options
  import opened Tokens
  import opened Scheduler
  import opened SchedulerRuns
  import opened SchedulerTheorems
  import opened SchedulerOutcomes
  import CI = CIConfig

  // ----- The recorded size is the stored size -----

  ghost predicate SizeKnown(y: System, j: nat)
    requires j in y.srv.jobs
  {
    var a := y.archives;
    if j in a.uploads then j in a.stored && a.stored[j] == a.uploads[j]
    else y.srv.jobs[j].artifactSize == if j in a.stored then a.stored[j] else 0
  }

  /** Serialized uploads: a job with none in flight advertises exactly the byte count in the store. */
  ghost predicate SizesKnown(y: System) {
    && (forall j :: j in y.archives.stored || j in y.archives.uploads ==> j in y.srv.jobs)
    && (forall j :: j in y.srv.jobs ==> SizeKnown(y, j))
  }

  /** No step but an upload changes a size, and a new job starts with none. */
  ghost predicate SizesKept(s: State, t: State) {
    && (forall j :: j in s.jobs ==> j in t.jobs && t.jobs[j].artifactSize == s.jobs[j].artifactSize)
    && (forall j :: j in t.jobs && j !in s.jobs ==> t.jobs[j].artifactSize == 0)
  }

  lemma EnqueueKeepsSizes(s: State, pid: nat)
    requires Listed(s, pid)
    ensures SizesKept(s, EnqueueStage(s, pid))
  {
    hide EnqueueStage;
    EnqueueFrame(s, pid);
  }

  lemma LaunchKeepsSizes(s: State, project: nat, config: CI.Config)
    requires config.stages != [] && IdsUnique(s)
    ensures SizesKept(s, CreatePipeline(s, project, config))
  {
    hide EnqueueStage, AddPipeline, NewToken;
    AddPipelineFrame(s, project, config);
    AddPipelineOwns(s, project, config);
    EnqueueKeepsSizes(AddPipeline(s, project, config), s.nextID);
  }

  lemma RollUpKeepsSizes(s: State, j: nat, state: JobStatus)
    requires Rollable(s, j)
    ensures SizesKept(s, RollUp(s, j, state))
  {
    hide EnqueueStage, StageDone;
    var pid := s.jobs[j].pipeline;
    if pid in s.pipelines {
      EnqueueKeepsSizes(Advanced(s, pid), pid);
    }
  }

  lemma KeptStillKnown(y: System, z: System)
    requires SizesKnown(y) && SizesKept(y.srv, z.srv) && z.archives == y.archives
    ensures SizesKnown(z)
  {
  }

  lemma UploadKeepsSizes(y: System, step: Step)
    requires Enabled(y, step) && SizesKnown(y) && (step.StoreArtifact? || step.RecordArtifact?)
    ensures SizesKnown(Apply(y, step))
  {
    assert forall j :: j in y.srv.jobs ==> SizeKnown(y, j);
  }

  lemma StatusKeepsSizes(s: State, j: nat, status: JobStatus)
    ensures SizesKept(s, SetStatus(s, j, status))
  {
  }

  lemma StepKeepsSizes(y: System, step: Step)
    requires Inv(y) && Enabled(y, step) && SizesKnown(y)
    ensures SizesKnown(Apply(y, step))
  {
    hide JobsOk, PipelinesOk, Queued, Reported, StageIndex, RollUp, CreatePipeline, IdsUnique, SetStatus, SizesKnown;
    hide NewToken, SizeArtifact, NameArtifact, Dequeue;
    if step.StoreArtifact? || step.RecordArtifact? {
      UploadKeepsSizes(y, step);
    } else {
      match step {
        case Finish(j, state) => RollUpKeepsSizes(y.srv, j, state);
        case Launch(project, config) => LaunchKeepsSizes(y.srv, project, config);
        case Start(j) => StatusKeepsSizes(y.srv, j, Running);
        case Report(j, state) => StatusKeepsSizes(y.srv, j, state);
        case _ =>
      }
      KeptStillKnown(y, Apply(y, step));
    }
  }

  lemma {:induction false} RunKeepsSizes(y: System, steps: seq<Step>)
    requires Inv(y) && IsRun(y, steps) && SizesKnown(y)
    ensures SizesKnown(After(y, steps))
    decreases |steps|
  {
    hide Inv, SizesKnown, Enabled, Apply;
    if steps != [] {
      StepKeepsSizes(y, steps[0]);
      StepKeeps(y, steps[0]);
      RunKeepsSizes(Apply(y, steps[0]), steps[1..]);
    }
  }

  lemma ReachableSizes(y: System)
    requires Reachable(y)
    ensures SizesKnown(y)
  {
    hide Inv;
    var steps :| IsRun(START, steps) && After(START, steps) == y;
    StartsWell();
    assert SizesKnown(START);
    RunKeepsSizes(START, steps);
  }

  // ----- The list -----

  /** Exactly the needed jobs are listed. */
  lemma {:induction false} DependencyMembers(s: State, p: Pipeline, j: nat, ids: seq<nat>)
    requires j in s.jobs
    ensures forall d :: d in Dependencies(s, p, j, ids) <==>
              exists c :: c in ids && c in s.jobs && Needs(s, p, j, c) && d == Advertised(s, c)
  {
    hide Needs, Advertised;
    if ids != [] {
      var n := |ids| - 1;
      DependencyMembers(s, p, j, ids[..n]);
      assert ids == ids[..n] + [ids[n]];
    }
  }

  /** Stage `a` is listed, and its first place is before any place of the listed stage `b`. */
  ghost predicate Earlier(stages: seq<string>, a: string, b: string) {
    b in stages && exists i :: 0 <= i < |stages| && stages[i] == a && b !in stages[..i + 1]
  }

  lemma EarlierByIndex(stages: seq<string>, a: string, b: string)
    ensures Earlier(stages, a, b) <==> 0 <= StageIndex(stages, a) < StageIndex(stages, b)
  {
    var i, k := StageIndex(stages, a), StageIndex(stages, b);
    if 0 <= i < k {
      assert b !in stages[..i + 1];
    }
    if Earlier(stages, a, b) {
      var x :| 0 <= x < |stages| && stages[x] == a && b !in stages[..x + 1];
      forall y | 0 <= y <= x
        ensures stages[y] in stages[..x + 1]
      {
        assert stages[..x + 1][y] == stages[y];
      }
    }
  }

  /** `d` advertises job `c` of the pipeline: an earlier stage, named if names are given, with artifacts. */
  ghost predicate Advertises(s: State, p: Pipeline, j: nat, c: nat, d: Dependency)
    requires j in s.jobs
  {
    && c in p.jobIDs && c in s.jobs
    && var mine, other := s.jobs[j], s.jobs[c];
       && Earlier(p.stages, other.spec.stage, mine.spec.stage)
       && (mine.spec.dependencies.Some? ==> other.spec.name in mine.spec.dependencies.value)
       && other.artifactSize > 0
       && d.id == c && d.name == other.spec.name && d.token == other.token && d.size == other.artifactSize
       && d.filename == if other.artifactFilename == "" then "artifacts.zip" else other.artifactFilename
  }

  lemma AdvertisesMeaning(s: State, p: Pipeline, j: nat, c: nat, d: Dependency)
    requires j in s.jobs
    ensures Advertises(s, p, j, c, d) <==> c in p.jobIDs && c in s.jobs && Needs(s, p, j, c) && d == Advertised(s, c)
  {
    if c in s.jobs {
      EarlierByIndex(p.stages, s.jobs[c].spec.stage, s.jobs[j].spec.stage);
    }
    hide Earlier, StageIndex;
  }

  /** The entries come in the order of the pipeline's jobs. */
  ghost predicate Ordered(ds: seq<Dependency>, ids: seq<nat>) {
    forall a, b :: 0 <= a < b < |ds| ==> Precedes(ids, ds[a].id, ds[b].id)
  }

  lemma {:induction false} DependencyOrder(s: State, p: Pipeline, j: nat, ids: seq<nat>)
    requires j in s.jobs
    ensures Ordered(Dependencies(s, p, j, ids), ids)
  {
    hide Needs, Precedes;
    if ids != [] {
      var n := |ids| - 1;
      var before := Dependencies(s, p, j, ids[..n]);
      DependencyOrder(s, p, j, ids[..n]);
      DependencyMembers(s, p, j, ids[..n]);
      if ids[n] in s.jobs && Needs(s, p, j, ids[n]) {
        OneMoreOrdered(before, Advertised(s, ids[n]), ids, n);
      } else {
        OneMoreOrdered(before, Dependency(ids[n], "", "", "", 0), ids, n);
        assert Dependencies(s, p, j, ids) == before;
      }
    }
  }

  lemma OneMoreOrdered(before: seq<Dependency>, d: Dependency, ids: seq<nat>, n: nat)
    requires n == |ids| - 1 && d.id == ids[n] && Ordered(before, ids[..n])
    requires forall e :: e in before ==> e.id in ids[..n]
    ensures Ordered(before, ids) && Ordered(before + [d], ids)
  {
    forall a, b | 0 <= a < b < |before|
      ensures Precedes(ids, before[a].id, before[b].id)
    {
      LongerPrecedes(ids, n, before[a].id, before[b].id);
    }
    forall a | 0 <= a < |before|
      ensures Precedes(ids, before[a].id, d.id)
    {
      assert before[a] in before;
      var i :| 0 <= i < n && ids[..n][i] == before[a].id;
      assert ids[i] == before[a].id && ids[n] == d.id;
    }
  }

  lemma LongerPrecedes(ids: seq<nat>, n: nat, x: nat, y: nat)
    requires n <= |ids| && Precedes(ids[..n], x, y)
    ensures Precedes(ids, x, y)
  {
    var i, k :| 0 <= i < k < n && ids[..n][i] == x && ids[..n][k] == y;
    assert ids[i] == x && ids[k] == y;
  }

  /**
   * A job that has been released is told of exactly the artifact-bearing jobs of earlier stages
   * (only the named ones, if its list is explicit), in pipeline order; each has finished, and its
   * advertised size is the stored byte count unless an upload is still in flight.
   */
  lemma DependenciesComplete(y: System, j: nat)
    requires Reachable(y) && j in y.srv.jobs && y.srv.jobs[j].status != Created
    ensures y.srv.jobs[j].pipeline in y.srv.pipelines
    ensures var s, ds := y.srv, DependencyList(y.srv, j);
            var p := s.pipelines[s.jobs[j].pipeline];
            && (forall d :: d in ds <==> exists c :: Advertises(s, p, j, c, d))
            && Ordered(ds, p.jobIDs)
            && (forall d :: d in ds ==>
                  && d.id in s.jobs && s.jobs[d.id].status.Terminal()
                  && (d.id in y.archives.uploads || (d.id in y.archives.stored && d.size == y.archives.stored[d.id])))
  {
    hide Reachable, Dependencies, StageIndex, Needs, Advertises, Ordered;
    JobFacts(y, j);
    var s, ds := y.srv, DependencyList(y.srv, j);
    var pid := s.jobs[j].pipeline;
    var p := s.pipelines[pid];
    DependencyOrder(s, p, j, p.jobIDs);
    DependencyMembers(s, p, j, p.jobIDs);
    forall d: Dependency
      ensures d in ds <==> exists c: nat :: Advertises(s, p, j, c, d)
    {
      ListedIffAdvertised(s, p, j, d);
    }
    forall d | d in ds
      ensures d.id in s.jobs && s.jobs[d.id].status.Terminal()
      ensures d.id in y.archives.uploads || (d.id in y.archives.stored && d.size == y.archives.stored[d.id])
    {
      NeededIsDone(y, j, d.id);
    }
  }

  lemma ListedIffAdvertised(s: State, p: Pipeline, j: nat, d: Dependency)
    requires j in s.jobs
    ensures d in Dependencies(s, p, j, p.jobIDs) <==> exists c: nat :: Advertises(s, p, j, c, d)
  {
    hide Dependencies, Needs, Advertised, Advertises;
    DependencyMembers(s, p, j, p.jobIDs);
    if d in Dependencies(s, p, j, p.jobIDs) {
      var c :| c in p.jobIDs && c in s.jobs && Needs(s, p, j, c) && d == Advertised(s, c);
      AdvertisesMeaning(s, p, j, c, d);
    }
    if c: nat :| Advertises(s, p, j, c, d) {
      AdvertisesMeaning(s, p, j, c, d);
    }
  }

  lemma NeededIsDone(y: System, j: nat, c: nat)
    requires Reachable(y) && j in y.srv.jobs && y.srv.jobs[j].status != Created && c in y.srv.jobs
    requires y.srv.jobs[j].pipeline in y.srv.pipelines
    requires c in y.srv.pipelines[y.srv.jobs[j].pipeline].jobIDs
    requires Needs(y.srv, y.srv.pipelines[y.srv.jobs[j].pipeline], j, c)
    ensures y.srv.jobs[c].status.Terminal()
    ensures c in y.archives.uploads ||
            (c in y.archives.stored && Advertised(y.srv, c).size == y.archives.stored[c])
  {
    hide Reachable, StageIndex;
    PipelineFacts(y, y.srv.jobs[j].pipeline);
    ReachableSizes(y);
    assert SizeKnown(y, c);
    StageBarrier(y, c, j);
  }

  /** `dependencies: []` survives parsing as an explicit empty list, and then nothing is downloaded. */
  lemma ExplicitEmptyList(s: State, j: nat, name: string, content: seq<CI.Node>, g: CI.Globals, i: nat)
    requires j in s.jobs && CI.JobLaw(s.jobs[j].spec, name, content, g)
    requires CI.LastKeyAt(content, i, "dependencies")
    requires content[2 * i + 1].kind == CI.SequenceNode && content[2 * i + 1].content == []
    ensures DependencyList(s, j) == []
  {
    if s.jobs[j].pipeline in s.pipelines {
      var p, deps := s.pipelines[s.jobs[j].pipeline], DependencyList(s, j);
      assert deps == [] || deps[0] in deps;
      DependencyMembers(s, p, j, p.jobIDs);
    }
  }
}
