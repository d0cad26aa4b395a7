/**
 * pipeline.go's comment on onJobTerminal promises that a failed job fails the whole pipeline. The
 * code does not keep that promise: a sibling's later success re-opens the pipeline. The run below is
 * the witness; SchedulerFate.ReopenIff says exactly when it can happen.
 */
module SchedulerReopen {
  import opened Options
  import opened Tokens
  import opened Scheduler
  import opened SchedulerRuns
  import opened SchedulerTheorems
  import CI = CIConfig

  // Two jobs in the first stage, one in the second.
  const STAGES := ["build", "test"]

  function Spec(name: string, stage: string): CI.Job {
    CI.Job(name, stage, [], [], [], "", [], None, None)
  }

  const CONFIG := CI.Config(STAGES, [Spec("a", STAGES[0]), Spec("b", STAGES[0]), Spec("c", STAGES[1])])

  ghost function Case(id: nat, status: JobStatus): Job
    requires 4 <= id <= 6
  {
    FreshJob(id, 1, 3, CONFIG.jobs[id - 4]).(status := status)
  }

  lemma CaseFields()
    ensures forall s, t :: Case(4, s).status == s && Case(4, s).(status := t) == Case(4, t)
    ensures forall s, t :: Case(5, s).status == s && Case(5, s).(status := t) == Case(5, t)
    ensures forall s, t :: Case(6, s).status == s && Case(6, s).(status := t) == Case(6, t)
    ensures forall s :: Case(4, s).spec.stage == "build" && Case(5, s).spec.stage == "build"
    ensures forall s :: Case(6, s).spec.stage == "test"
  {
  }

  /** What the run's only pipeline, its three jobs and the work in flight look like. */
  datatype Shape = Shape(
    status: PipelineStatus, idx: nat, a: JobStatus, b: JobStatus, c: JobStatus,
    queue: seq<nat>, claimed: set<nat>, reports: multiset<(nat, JobStatus)>)
  {
    predicate With(j: nat, before: JobStatus, after: JobStatus, next: Shape) {
      && next.status == status && next.idx == idx && next.queue == queue
      && ((j == 4 && a == before && next.a == after && next.b == b && next.c == c) ||
          (j == 5 && b == before && next.b == after && next.a == a && next.c == c) ||
          (j == 6 && c == before && next.c == after && next.a == a && next.b == b))
    }
  }

  ghost predicate Snapshot(y: System, h: Shape) {
    && Reachable(y) && NewToken("glrt", 2) in y.srv.runners
    && y.srv.pipelines == map[3 := Pipeline(1, h.status, [4, 5, 6], STAGES, h.idx)]
    && y.srv.jobs == map[4 := Case(4, h.a), 5 := Case(5, h.b), 6 := Case(6, h.c)]
    && y.srv.queue == h.queue && y.claimed == h.claimed && y.reports == h.reports
  }

  lemma MatchThree(jobs: map<nat, Job>, stage: string)
    requires Resolve([4, 5, 6], jobs)
    ensures Matching([4, 5, 6], jobs, stage) ==
            (if Waiting(jobs[4], stage) then [4] else []) + (if Waiting(jobs[5], stage) then [5] else []) +
            (if Waiting(jobs[6], stage) then [6] else [])
  {
    assert [4, 5, 6][..2] == [4, 5] && [4, 5][..1] == [4] && [4][..0] == [];
    assert Matching([4], jobs, stage) == if Waiting(jobs[4], stage) then [4] else [];
    assert Matching([4, 5], jobs, stage) == Matching([4], jobs, stage) + if Waiting(jobs[5], stage) then [5] else [];
  }

  lemma Added(s: State)
    requires s.nextID == 3 && s.pipelines == map[] && s.jobs == map[]
    ensures var t := AddPipeline(s, 1, CONFIG);
            && t.pipelines == map[3 := Pipeline(1, PlPending, [4, 5, 6], STAGES, 0)]
            && t.jobs == map[4 := Case(4, Created), 5 := Case(5, Created), 6 := Case(6, Created)]
  {
    hide NewToken, AddPipeline, Block;
    AddPipelineFrame(s, 1, CONFIG);
    assert Block(4, 3) == [4, 5, 6];
  }

  lemma FirstMarked()
    ensures MarkPending(map[4 := Case(4, Created), 5 := Case(5, Created), 6 := Case(6, Created)], [4, 5]) ==
            map[4 := Case(4, Pending), 5 := Case(5, Pending), 6 := Case(6, Created)]
  {
    hide Case;
    CaseFields();
  }

  lemma SecondMarked()
    ensures MarkPending(map[4 := Case(4, Failed), 5 := Case(5, Success), 6 := Case(6, Created)], [6]) ==
            map[4 := Case(4, Failed), 5 := Case(5, Success), 6 := Case(6, Pending)]
  {
    hide Case;
    CaseFields();
  }

  lemma Released(s: State)
    requires s.pipelines == map[3 := Pipeline(1, PlPending, [4, 5, 6], STAGES, 0)]
    requires s.jobs == map[4 := Case(4, Created), 5 := Case(5, Created), 6 := Case(6, Created)] && s.queue == []
    ensures var t := EnqueueStage(s, 3);
            && t.pipelines == map[3 := Pipeline(1, PlRunning, [4, 5, 6], STAGES, 0)]
            && t.jobs == map[4 := Case(4, Pending), 5 := Case(5, Pending), 6 := Case(6, Created)]
            && t.queue == [4, 5]
  {
    hide NewToken, Matching, Case, MarkPending;
    CaseFields();
    FirstMarked();
    MatchThree(s.jobs, "build");
    assert Matching([4, 5, 6], s.jobs, "build") == [4, 5];
    assert NextStage([4, 5, 6], s.jobs, STAGES, 0) == 0;
  }

  lemma Registered() returns (y: System)
    ensures Reachable(y) && y.srv == State(3, map[NewToken("glrt", 2) := 2], {1}, map[], map[], [])
    ensures y.claimed == {} && y.reports == multiset{}
  {
    hide NewToken, IsRun, After, Reachable;
    assert Reachable(START) by {
      EmptyRun();
    }
    y := Apply(START, AddProject);
    ReachStep(START, AddProject);
    ReachStep(y, AddRunner);
    y := Apply(y, AddRunner);
  }

  lemma EmptyRun()
    ensures Reachable(START)
  {
    assert IsRun(START, []) && After(START, []) == START;
  }

  lemma Launched() returns (y: System)
    ensures Snapshot(y, Shape(PlRunning, 0, Pending, Pending, Created, [4, 5], {}, multiset{}))
  {
    hide NewToken, IsRun, After, Reachable, AddPipeline, EnqueueStage;
    y := Registered();
    ReachStep(y, Launch(1, CONFIG));
    Added(y.srv);
    AddPipelineFrame(y.srv, 1, CONFIG);
    EnqueueFrame(AddPipeline(y.srv, 1, CONFIG), 3);
    Released(AddPipeline(y.srv, 1, CONFIG));
    y := Apply(y, Launch(1, CONFIG));
  }

  lemma TakeJob(y: System, h: Shape, h': Shape) returns (z: System)
    requires Snapshot(y, h) && h.queue != [] && h.queue[0] in {4, 5, 6}
    requires h'.queue == h.queue[1..] && h'.claimed == h.claimed + {h.queue[0]}
    requires h' == h.(queue := h'.queue, claimed := h'.claimed)
    ensures Snapshot(z, h')
  {
    hide NewToken, Reachable, Case;
    var step := Claim(NewToken("glrt", 2));
    ReachStep(y, step);
    z := Apply(y, step);
  }

  lemma Begin(y: System, h: Shape, j: nat, h': Shape) returns (z: System)
    requires Snapshot(y, h) && j in h.claimed && h.With(j, Pending, Running, h')
    requires h'.claimed == h.claimed - {j} && h'.reports == h.reports
    ensures Snapshot(z, h')
  {
    hide NewToken, Reachable, Spec;
    ReachStep(y, Start(j));
    z := Apply(y, Start(j));
  }

  lemma Tell(y: System, h: Shape, j: nat, result: JobStatus, h': Shape) returns (z: System)
    requires Snapshot(y, h) && result.Terminal() && h.With(j, Running, result, h')
    requires h'.claimed == h.claimed && h'.reports == h.reports + multiset{(j, result)}
    ensures Snapshot(z, h')
  {
    hide NewToken, Reachable, Spec;
    ReachStep(y, Report(j, result));
    z := Apply(y, Report(j, result));
  }

  lemma Fails(y: System) returns (z: System)
    requires Snapshot(y, Shape(PlRunning, 0, Failed, Success, Created, [], {}, multiset{(4, Failed), (5, Success)}))
    ensures Snapshot(z, Shape(PlFailed, 0, Failed, Success, Created, [], {}, multiset{(5, Success)}))
  {
    hide NewToken, Reachable;
    ReachStep(y, Finish(4, Failed));
    z := Apply(y, Finish(4, Failed));
  }

  lemma ReleasedAgain(s: State)
    requires s.pipelines == map[3 := Pipeline(1, PlFailed, [4, 5, 6], STAGES, 1)]
    requires s.jobs == map[4 := Case(4, Failed), 5 := Case(5, Success), 6 := Case(6, Created)] && s.queue == []
    ensures var t := EnqueueStage(s, 3);
            && t.pipelines == map[3 := Pipeline(1, PlRunning, [4, 5, 6], STAGES, 1)]
            && t.jobs == map[4 := Case(4, Failed), 5 := Case(5, Success), 6 := Case(6, Pending)]
            && t.queue == [6]
  {
    hide NewToken, Matching, Case, MarkPending;
    CaseFields();
    SecondMarked();
    MatchThree(s.jobs, "test");
    assert Matching([4, 5, 6], s.jobs, "test") == [6];
    assert NextStage([4, 5, 6], s.jobs, STAGES, 1) == 1;
  }

  lemma Reopens(y: System) returns (z: System)
    requires Snapshot(y, Shape(PlFailed, 0, Failed, Success, Created, [], {}, multiset{(5, Success)}))
    ensures Snapshot(z, Shape(PlRunning, 1, Failed, Success, Pending, [6], {}, multiset{}))
  {
    hide NewToken, Reachable, EnqueueStage;
    ReachStep(y, Finish(5, Success));
    ReleasedAgain(Advanced(y.srv, 3));
    EnqueueFrame(Advanced(y.srv, 3), 3);
    z := Apply(y, Finish(5, Success));
  }

  lemma Succeeds(y: System) returns (z: System)
    requires Snapshot(y, Shape(PlRunning, 1, Failed, Success, Success, [], {}, multiset{(6, Success)}))
    ensures Snapshot(z, Shape(PlSuccess, 2, Failed, Success, Success, [], {}, multiset{}))
  {
    hide NewToken, Reachable, Matching;
    ReachStep(y, Finish(6, Success));
    z := Apply(y, Finish(6, Success));
  }

  /** A pipeline with a failed job can end in success, with every report rolled up. */
  lemma FailedPipelineMaySucceed() returns (y: System)
    ensures Reachable(y) && y.reports == multiset{} && y.srv.queue == [] && y.claimed == {}
    ensures 3 in y.srv.pipelines && y.srv.pipelines[3].status == PlSuccess
    ensures 4 in y.srv.pipelines[3].jobIDs && 4 in y.srv.jobs && y.srv.jobs[4].status == Failed
  {
    y := FirstStageReported();
    y := SecondStageReported(y);
    y := Succeeds(y);
  }

  lemma FirstStageReported() returns (y: System)
    ensures Snapshot(y, Shape(PlRunning, 0, Failed, Success, Created, [], {}, multiset{(4, Failed), (5, Success)}))
  {
    hide Snapshot;
    var h0 := Shape(PlRunning, 0, Pending, Pending, Created, [4, 5], {}, multiset{});
    var h1 := h0.(queue := [5], claimed := {4});
    var h2 := h0.(queue := [], claimed := {4, 5});
    var h3 := h2.(a := Running, claimed := {5});
    var h4 := h3.(b := Running, claimed := {});
    var h5 := h4.(a := Failed, reports := multiset{(4, Failed)});
    var h6 := h5.(b := Success, reports := multiset{(4, Failed), (5, Success)});
    y := Launched();
    y := TakeJob(y, h0, h1);
    y := TakeJob(y, h1, h2);
    y := Begin(y, h2, 4, h3);
    y := Begin(y, h3, 5, h4);
    y := Tell(y, h4, 4, Failed, h5);
    y := Tell(y, h5, 5, Success, h6);
  }

  lemma SecondStageReported(x: System) returns (y: System)
    requires Snapshot(x, Shape(PlRunning, 0, Failed, Success, Created, [], {}, multiset{(4, Failed), (5, Success)}))
    ensures Snapshot(y, Shape(PlRunning, 1, Failed, Success, Success, [], {}, multiset{(6, Success)}))
  {
    hide Snapshot;
    var h0 := Shape(PlRunning, 1, Failed, Success, Pending, [6], {}, multiset{});
    var h1 := h0.(queue := [], claimed := {6});
    var h2 := h1.(c := Running, claimed := {});
    y := Fails(x);
    y := Reopens(y);
    y := TakeJob(y, h0, h1);
    y := Begin(y, h1, 6, h2);
    y := Tell(y, h2, 6, Success, h2.(c := Success, reports := multiset{(6, Success)}));
  }
}
