/**
 * Seeding a graph on the ring scheduler.  The walk of `execute` submits every node without predecessors before
 * `run` is called, and so comes to its end if and only if the ring has a slot for each of them.
 */
module GraphOnRing {
  import opened BagScheduler
  import opened Graphs
  import opened GraphOnSchedulers
  import E = RingEarly
  import G = DagModel
  import GI = DagInvariant
  import GS = DagSteps
  import GT = DagTheorems
  import R = RingScheduler
  import RT = RingSchedulerTheorems
  import T = DagTermination

  // ---------------------------------------------------------------- the walk counts the sources

  /** The walk has submitted just the sources it has passed. */
  ghost predicate SeededOk(g: Graph, d: G.Dag) {
    d.driver.Seeding? ==> |d.jobs| == SourcesBelow(g, d.driver.i)
  }

  lemma NothingPassedYet(g: Graph, b: Bag, d: G.Dag, v: nat)
    requires GI.Inv(g, b, d) && d.driver.Seeding? && v < |g|
    ensures d.deps[v] == InDegree(g, v)
  {
    forall u | 0 <= u < |g|
      ensures d.passed[u] == 0
    {
      assert GI.NodeOk(g, d, u);
      if d.status[u].HasJob? {
        assert GI.JobOk(g, d, d.status[u].t);
      }
    }
    assert d.passed == seq(|g|, _ => 0);
  }

  lemma StepKeepsSeeded(g: Graph, b: Bag, d: G.Dag, step: G.DagStep)
    requires GI.Inv(g, b, d) && SeededOk(g, d) && G.Enabled(g, d, step)
    ensures SeededOk(g, G.Do(g, d, step))
  {
    var d' := G.Do(g, d, step);
    if d'.driver.Seeding? {
      if step.Skip? || step.Seed? {
        NothingPassedYet(g, b, d, d.driver.i);
      } else {
        assert step.t in d.jobs && d.jobs[step.t].stage.Queued?;
      }
    }
  }

  lemma {:induction false} RunKeepsSeeded(g: Graph, b: Bag, d: G.Dag, steps: seq<G.DagStep>, b': Bag, d': G.Dag)
    requires GI.Inv(g, b, d) && SeededOk(g, d) && G.Reaches(g, b, d, steps, b', d')
    ensures GI.Inv(g, b', d') && SeededOk(g, d')
    decreases |steps|
  {
    if steps != [] {
      var b1, d1 :| G.Next(g, b, d, steps[0], b1, d1) && G.Reaches(g, b1, d1, steps[1..], b', d');
      GS.StepKeepsInv(g, b, d, steps[0], b1, d1);
      StepKeepsSeeded(g, b, d, steps[0]);
      RunKeepsSeeded(g, b1, d1, steps[1..], b', d');
    }
  }

  /** During the walk, what is queued is one task for each source passed. */
  lemma QueuedAreSources(g: Graph, b: Bag, d: G.Dag)
    requires GT.Reachable(g, b, d) && d.driver.Seeding?
    ensures d.driver.i <= |g| && |b.queued| == SourcesBelow(g, d.driver.i)
  {
    var steps :| G.Reaches(g, EMPTY_BAG, G.Built(g), steps, b, d);
    GS.InitHasInv(g);
    RunKeepsSeeded(g, EMPTY_BAG, G.Built(g), steps, b, d);
    assert b.queued == d.jobs.Keys;
  }

  // ---------------------------------------------------------------- graph and ring in step

  ghost predicate InStep(g: Graph, size: nat, n: nat, r: R.Rs, d: G.Dag) {
    RT.Reachable(size, n, r) && GT.Reachable(g, r.bag, d)
  }

  lemma MoveKeepsStep(g: Graph, size: nat, n: nat, r: R.Rs, d: G.Dag, m: Move<R.RsStep>, r': R.Rs, d': G.Dag)
    requires InStep(g, size, n, r, d) && RingNext(g, r, d, m, r', d')
    ensures InStep(g, size, n, r', d')
  {
    if !m.GraphAlone? {
      RT.ReachableGoesOn(size, n, r, m.s);
    }
    if !m.SchedulerAlone? {
      GT.ReachableGoesOn(g, r.bag, d, m.d, r'.bag, d');
    }
  }

  lemma StartsInStep(g: Graph, size: nat, n: nat)
    requires WellFormed(g) && size >= 2
    ensures InStep(g, size, n, R.Init(size, n), G.Built(g))
  {
    assert R.Reaches(R.Init(size, n), [], R.Init(size, n));
    assert G.Reaches(g, EMPTY_BAG, G.Built(g), [], EMPTY_BAG, G.Built(g));
  }

  // ---------------------------------------------------------------- only if the sources fit

  ghost predicate SourcesFit(g: Graph, size: nat) {
    SourcesBelow(g, |g|) <= size
  }

  /** `run` is called only at the end of the walk, with all sources in the ring. */
  lemma LaunchMeansFit(g: Graph, size: nat, n: nat, r: R.Rs, d: G.Dag, m: Move<R.RsStep>, r': R.Rs, d': G.Dag)
    requires InStep(g, size, n, r, d) && RingNext(g, r, d, m, r', d') && !R.Launched(r) && R.Launched(r')
    ensures SourcesFit(g, size)
  {
    assert m.Together? && m.s.CallRun?;
    E.EarlySubmissionsFit(size, n, r);
    QueuedAreSources(g, r.bag, d);
  }

  lemma {:induction false} LaunchedMeansFit(g: Graph, size: nat, n: nat, r: R.Rs, d: G.Dag,
                                           moves: seq<Move<R.RsStep>>, r': R.Rs, d': G.Dag)
    requires InStep(g, size, n, r, d) && RingReaches(g, r, d, moves, r', d')
    requires R.Launched(r) ==> SourcesFit(g, size)
    ensures InStep(g, size, n, r', d') && (R.Launched(r') ==> SourcesFit(g, size))
    decreases |moves|
  {
    if moves != [] {
      var r1, d1 :| RingNext(g, r, d, moves[0], r1, d1) && RingReaches(g, r1, d1, moves[1..], r', d');
      MoveKeepsStep(g, size, n, r, d, moves[0], r1, d1);
      if !R.Launched(r) && R.Launched(r1) {
        LaunchMeansFit(g, size, n, r, d, moves[0], r1, d1);
      }
      LaunchedMeansFit(g, size, n, r1, d1, moves[1..], r', d');
    }
  }

  // ---------------------------------------------------------------- if they fit

  ghost predicate RingLeads(g: Graph, r: R.Rs, d: G.Dag, r': R.Rs, d': G.Dag) {
    exists moves :: RingReaches(g, r, d, moves, r', d')
  }

  lemma LeadsToItself(g: Graph, r: R.Rs, d: G.Dag)
    ensures RingLeads(g, r, d, r, d)
  {
    assert RingReaches(g, r, d, [], r, d);
  }

  lemma LeadsByOne(g: Graph, r: R.Rs, d: G.Dag, m: Move<R.RsStep>, r1: R.Rs, d1: G.Dag, r': R.Rs, d': G.Dag)
    requires RingNext(g, r, d, m, r1, d1) && RingLeads(g, r1, d1, r', d')
    ensures RingLeads(g, r, d, r', d')
  {
    var moves :| RingReaches(g, r1, d1, moves, r', d');
    assert ([m] + moves)[1..] == moves;
    assert RingReaches(g, r, d, [m] + moves, r', d');
  }

  lemma {:induction false} QuietRunLeads(g: Graph, r: R.Rs, d: G.Dag, steps: seq<R.RsStep>, r1: R.Rs, r': R.Rs,
                                         d': G.Dag)
    requires E.QuietRun(r, steps, r1) && RingLeads(g, r1, d, r', d')
    ensures RingLeads(g, r, d, r', d')
    decreases |steps|
  {
    if steps != [] {
      QuietRunLeads(g, R.Do(r, steps[0]), d, steps[1..], r1, r', d');
      LeadsByOne(g, r, d, SchedulerAlone(steps[0]), R.Do(r, steps[0]), d, r', d');
    }
  }

  /** The next move of the walk while no submission is under way. */
  lemma WalkMove(g: Graph, size: nat, n: nat, r: R.Rs, d: G.Dag) returns (m: Move<R.RsStep>, r1: R.Rs, d1: G.Dag)
    requires InStep(g, size, n, r, d) && r.main.Building?
    ensures d.driver.Seeding? && RingNext(g, r, d, m, r1, d1) && InStep(g, size, n, r1, d1)
    ensures if R.Launched(r1) then !d1.driver.Seeding? else d1.driver == G.Seeding(d.driver.i + 1)
    ensures d.driver.i <= |g| && (!R.Launched(r1) ==> d.driver.i < |g|)
  {
    BuildingMeansSeeding(size, n, r, g, d);
    var step := T.SeedingStep(g, r.bag, d);
    m := match step
      case Seed(t) => Together(R.SubmitExternal(t), step)
      case LaunchRun => Together(R.CallRun, step)
      case _ => GraphAlone(step);
    r1 := if m.Together? then R.Do(r, m.s) else r;
    d1 := G.Do(g, d, step);
    MoveKeepsStep(g, size, n, r, d, m, r1, d1);
    BuildingMeansSeeding(size, n, r1, g, d1);
    QueuedAreSources(g, r.bag, d);
  }

  lemma BuildingMeansSeeding(size: nat, n: nat, r: R.Rs, g: Graph, d: G.Dag)
    requires InStep(g, size, n, r, d)
    ensures R.Launched(r) == !d.driver.Seeding?
  {
    E.ReachableIsEarly(size, n, r);
    T.DriverInBag(g, r.bag, d);
  }

  /** As long as the sources fit, the walk can be brought to its end from wherever it is, and `run` be called. */
  lemma {:induction false} WalkCanFinish(g: Graph, size: nat, n: nat, r: R.Rs, d: G.Dag) returns (r': R.Rs, d': G.Dag)
    requires InStep(g, size, n, r, d) && SourcesFit(g, size)
    ensures RingLeads(g, r, d, r', d') && R.Launched(r') && InStep(g, size, n, r', d')
    decreases if d.driver.Seeding? then |g| - d.driver.i + 1 else 0, if r.main.Enqueuing? then 1 else 0
  {
    BuildingMeansSeeding(size, n, r, g, d);
    if R.Launched(r) {
      r', d' := r, d;
      LeadsToItself(g, r, d);
    } else if r.main.Enqueuing? {
      QueuedAreSources(g, r.bag, d);
      SourcesGrow(g, d.driver.i, |g|);
      var steps, r1 := E.EnqueueCanFinish(size, n, r);
      r', d' := WalkCanFinish(g, size, n, r1, d);
      QuietRunLeads(g, r, d, steps, r1, r', d');
    } else {
      var m, r1, d1 := WalkMove(g, size, n, r, d);
      r', d' := WalkCanFinish(g, size, n, r1, d1);
      LeadsByOne(g, r, d, m, r1, d1, r', d');
    }
  }

  // ---------------------------------------------------------------- exactly if they fit

  lemma InStepFromStart(g: Graph, size: nat, n: nat, r: R.Rs, d: G.Dag)
    requires RingReachable(g, size, n, r, d)
    ensures InStep(g, size, n, r, d) && (R.Launched(r) ==> SourcesFit(g, size))
  {
    var moves :| RingReaches(g, R.Init(size, n), G.Built(g), moves, r, d);
    StartsInStep(g, size, n);
    LaunchedMeansFit(g, size, n, R.Init(size, n), G.Built(g), moves, r, d);
  }

  /**
   * On the ring scheduler `execute` can get as far as calling `run` if and only if the graph has no more
   * sources than the ring has slots.
   */
  lemma SeedingFitsExactly(g: Graph, size: nat, n: nat)
    requires WellFormed(g) && size >= 2
    ensures (exists r, d :: RingReachable(g, size, n, r, d) && R.Launched(r)) <==> SourcesFit(g, size)
  {
    if r, d :| RingReachable(g, size, n, r, d) && R.Launched(r) {
      InStepFromStart(g, size, n, r, d);
    }
    if SourcesFit(g, size) {
      StartsInStep(g, size, n);
      var r, d := WalkCanFinish(g, size, n, R.Init(size, n), G.Built(g));
      assert RingReachable(g, size, n, r, d);
    }
  }

  /** With more sources than slots `execute` never calls `run`, and so never returns. */
  lemma TooManySourcesStall(g: Graph, size: nat, n: nat, r: R.Rs, d: G.Dag)
    requires RingReachable(g, size, n, r, d) && !SourcesFit(g, size)
    ensures !R.Launched(r) && !r.main.Returned? && d.driver.Seeding?
  {
    InStepFromStart(g, size, n, r, d);
    BuildingMeansSeeding(size, n, r, g, d);
  }
}
