/**
 * Executing a graph on the ring scheduler, in the end.  From every reachable state some continuation makes `run`
 * return or jams the ring.  Jams are impossible while the graph has fewer nodes than ring slots and twice
 * the workers together, and one worker cannot get past a node that hands out more tasks than there are slots.
 */
module GraphOnRingProgress {
  import opened Wrappers
  import opened BagScheduler
  import opened Graphs
  import opened GraphOnRing
  import opened GraphOnSchedulers
  import opened Multisets
  import DS = DagSteps
  import E = RingEarly
  import G = DagModel
  import GI = DagInvariant
  import GT = DagTheorems
  import I = RingInvariant
  import M = RingModel
  import P = RingProgress
  import R = RingScheduler
  import RI = RingSchedulerInvariant
  import RS = RingSchedulerSteps
  import RT = RingSchedulerTheorems
  import S = RingSteps
  import T = DagTermination

  lemma QuietlyLeads(g: Graph, r: R.Rs, d: G.Dag, r1: R.Rs, r': R.Rs, d': G.Dag)
    requires P.Quietly(r, r1) && RingLeads(g, r1, d, r', d')
    ensures RingLeads(g, r, d, r', d')
  {
    var steps :| E.QuietRun(r, steps, r1);
    QuietRunLeads(g, r, d, steps, r1, r', d');
  }

  // ---------------------------------------------------------------- one step of the graph

  /** A step of the graph can be taken now, alone or with a step of the scheduler. */
  ghost predicate CanStep(g: Graph, r: R.Rs, d: G.Dag, m: Move<R.RsStep>) {
    && !m.SchedulerAlone? && G.Enabled(g, d, m.d)
    && match m
       case GraphAlone(step) => G.LabelOf(step) == Tau && RingThreadFree(r, step)
       case Together(s, step) => R.Enabled(r, s) && R.LabelOf(r, s) == G.LabelOf(step) != Tau
       case SchedulerAlone(_) => false
  }

  function AfterMove(r: R.Rs, m: Move<R.RsStep>): R.Rs
    requires m.Together? ==> R.Enabled(r, m.s)
  {
    if m.Together? then R.Do(r, m.s) else r
  }

  /** Such a step does work and keeps the two in step. */
  lemma StepLeads(g: Graph, size: nat, n: nat, r: R.Rs, d: G.Dag, m: Move<R.RsStep>)
    requires InStep(g, size, n, r, d) && CanStep(g, r, d, m)
    ensures
      var r1, d1 := AfterMove(r, m), G.Do(g, d, m.d);
      && RingNext(g, r, d, m, r1, d1) && InStep(g, size, n, r1, d1) && 0 <= T.Work(g, d1) < T.Work(g, d)
  {
    var r1, d1 := AfterMove(r, m), G.Do(g, d, m.d);
    assert RingNext(g, r, d, m, r1, d1);
    MoveKeepsStep(g, size, n, r, d, m, r1, d1);
    T.ReachableStepWorks(g, r.bag, d, m.d);
    T.ReachableWork(g, r1.bag, d1);
  }

  lemma RunnerIsInBag(size: nat, n: nat, r: R.Rs, w: nat)
    requires RT.Reachable(size, n, r) && w < |r.workers| && r.workers[w].Running?
    ensures r.workers[w].t in r.bag.running
  {
    E.ReachableIsEarly(size, n, r);
    RS.InHandIsRunning(r, w);
  }

  /** The node task in a worker's hand can make its next step. */
  lemma RunningCanStep(g: Graph, size: nat, n: nat, r: R.Rs, d: G.Dag, w: nat) returns (m: Move<R.RsStep>)
    requires InStep(g, size, n, r, d) && R.Worker(r, w) && r.workers[w].Running?
    ensures CanStep(g, r, d, m)
  {
    RunnerIsInBag(size, n, r, w);
    var step := T.RunningStep(g, r.bag, d, r.workers[w].t);
    m := match step
      case Hand(_, x) => Together(R.SubmitChild(w, x), step)
      case Finish(_) => Together(R.FinishTask(w), step)
      case _ => GraphAlone(step);
  }

  lemma StartingCanStep(g: Graph, size: nat, n: nat, r: R.Rs, d: G.Dag, s: R.RsStep) returns (m: Move<R.RsStep>)
    requires InStep(g, size, n, r, d) && R.Enabled(r, s) && R.LabelOf(r, s).Start?
    ensures CanStep(g, r, d, m)
  {
    RT.ReachableGoesOn(size, n, r, s);
    var t := R.LabelOf(r, s).t;
    T.QueuedStep(g, r.bag, d, t);
    m := Together(s, G.Begin(t));
  }

  lemma JoiningReturns(g: Graph, r: R.Rs, d: G.Dag)
    requires R.Enabled(r, R.JoinAll) && d.driver.InRun?
    ensures CanStep(g, r, d, Together(R.JoinAll, G.ReturnFromRun))
  {
  }

  /** What the scheduler may do, the graph can do with it. */
  lemma MayMoveCanStep(g: Graph, size: nat, n: nat, r: R.Rs, d: G.Dag) returns (m: Move<R.RsStep>)
    requires InStep(g, size, n, r, d) && P.MayMove(r) && d.driver.InRun?
    ensures CanStep(g, r, d, m)
  {
    if s :| R.Enabled(r, s) && R.LabelOf(r, s).Start? {
      m := StartingCanStep(g, size, n, r, d, s);
    } else if w: nat :| R.Worker(r, w) && r.workers[w].Running? {
      m := RunningCanStep(g, size, n, r, d, w);
    } else {
      JoiningReturns(g, r, d);
      m := Together(R.JoinAll, G.ReturnFromRun);
    }
  }

  lemma InRunMeans(g: Graph, size: nat, n: nat, r: R.Rs, d: G.Dag)
    requires InStep(g, size, n, r, d) && d.driver.InRun?
    ensures r.main.Waiting? || r.main.Stopping? || r.main.Joining?
    ensures !r.main.Waiting? ==> RI.Quiescent(r)
    ensures r.main.Joining? ==> r.shutdown
  {
    E.ReachableIsEarly(size, n, r);
    T.DriverInBag(g, r.bag, d);
  }

  /** During `run`, unless the ring is jammed, the graph can make another step after some of the scheduler. */
  lemma LaunchedCanStep(g: Graph, size: nat, n: nat, r: R.Rs, d: G.Dag) returns (r1: R.Rs, m: Move<R.RsStep>)
    requires InStep(g, size, n, r, d) && d.driver.InRun? && n >= 1 && !P.Jammed(r)
    ensures P.Quietly(r, r1) && InStep(g, size, n, r1, d) && CanStep(g, r1, d, m)
  {
    InRunMeans(g, size, n, r, d);
    if r.main.Waiting? {
      r1 := P.CanGoOn(size, n, r);
    } else {
      r1 := P.DoneCanReturn(size, n, r);
    }
    m := MayMoveCanStep(g, size, n, r1, d);
  }

  lemma ReturnedTogether(g: Graph, size: nat, n: nat, r: R.Rs, d: G.Dag)
    requires InStep(g, size, n, r, d)
    ensures r.main.Returned? == d.driver.Returned?
  {
    E.ReachableIsEarly(size, n, r);
    T.DriverInBag(g, r.bag, d);
  }

  // ---------------------------------------------------------------- to the end, or to a jam

  /** Both layers have returned, or the ring is jammed. */
  ghost predicate Ended(r: R.Rs, d: G.Dag) {
    (r.main.Returned? && d.driver.Returned?) || P.Jammed(r)
  }

  lemma {:induction false} CanFinish(g: Graph, size: nat, n: nat, r: R.Rs, d: G.Dag, work: nat)
    returns (r': R.Rs, d': G.Dag)
    requires InStep(g, size, n, r, d) && R.Launched(r) && n >= 1 && work == T.Work(g, d)
    ensures RingLeads(g, r, d, r', d') && InStep(g, size, n, r', d') && Ended(r', d')
    decreases work
  {
    BuildingMeansSeeding(size, n, r, g, d);
    if d.driver.Returned? || P.Jammed(r) {
      r', d' := r, d;
      LeadsToItself(g, r, d);
      ReturnedTogether(g, size, n, r, d);
    } else {
      var r1, m := LaunchedCanStep(g, size, n, r, d);
      StepLeads(g, size, n, r1, d, m);
      var r2, d2 := AfterMove(r1, m), G.Do(g, d, m.d);
      StaysLaunched(g, size, n, r1, d, m);
      r', d' := CanFinish(g, size, n, r2, d2, T.Work(g, d2));
      LeadsByOne(g, r1, d, m, r2, d2, r', d');
      QuietlyLeads(g, r, d, r1, r', d');
    }
  }

  lemma StaysLaunched(g: Graph, size: nat, n: nat, r: R.Rs, d: G.Dag, m: Move<R.RsStep>)
    requires InStep(g, size, n, r, d) && CanStep(g, r, d, m) && d.driver.InRun?
    ensures R.Launched(AfterMove(r, m))
  {
    BuildingMeansSeeding(size, n, r, g, d);
    if m.Together? && !R.Launched(R.Do(r, m.s)) {
      E.OnlyRestEnds(r, m.s);
    }
  }

  /** With no more sources than slots, every reachable state can be continued to the return of `run` or to a jam. */
  lemma ExecuteCanReturnOrJam(g: Graph, size: nat, n: nat, r: R.Rs, d: G.Dag) returns (r': R.Rs, d': G.Dag)
    requires RingReachable(g, size, n, r, d) && SourcesFit(g, size) && n >= 1
    ensures RingLeads(g, r, d, r', d') && InStep(g, size, n, r', d') && Ended(r', d')
  {
    InStepFromStart(g, size, n, r, d);
    var r1, d1 := WalkCanFinish(g, size, n, r, d);
    T.ReachableWork(g, r1.bag, d1);
    r', d' := CanFinish(g, size, n, r1, d1, T.Work(g, d1));
    LeadsOn(g, r, d, r1, d1, r', d');
  }

  lemma LeadsOn(g: Graph, r: R.Rs, d: G.Dag, r1: R.Rs, d1: G.Dag, r': R.Rs, d': G.Dag)
    requires RingLeads(g, r, d, r1, d1) && RingLeads(g, r1, d1, r', d')
    ensures RingLeads(g, r, d, r', d')
  {
    var moves :| RingReaches(g, r, d, moves, r1, d1);
    MovesLeadOn(g, r, d, moves, r1, d1, r', d');
  }

  lemma {:induction false} MovesLeadOn(g: Graph, r: R.Rs, d: G.Dag, moves: seq<Move<R.RsStep>>, r1: R.Rs, d1: G.Dag,
                                       r': R.Rs, d': G.Dag)
    requires RingReaches(g, r, d, moves, r1, d1) && RingLeads(g, r1, d1, r', d')
    ensures RingLeads(g, r, d, r', d')
    decreases |moves|
  {
    if moves != [] {
      var r2, d2 :| RingNext(g, r, d, moves[0], r2, d2) && RingReaches(g, r2, d2, moves[1..], r1, d1);
      MovesLeadOn(g, r2, d2, moves[1..], r1, d1, r', d');
      LeadsByOne(g, r, d, moves[0], r2, d2, r', d');
    }
  }

  // ---------------------------------------------------------------- a jam needs many nodes

  /** Different tasks are for different nodes. */
  lemma {:induction false} TasksAreNodes(g: Graph, d: G.Dag, ts: set<Task>, n: nat)
    requires GI.Sizes(g, d) && GI.JobsOk(g, d) && n <= |g|
    requires forall t | t in ts :: t in d.jobs && d.jobs[t].node < n
    ensures |ts| <= n
    decreases n
  {
    if t :| t in ts {
      assert GI.JobOk(g, d, t);
      var rest := set x | x in ts && d.jobs[x].node < n - 1;
      forall x, y | x in ts - rest && y in ts - rest
        ensures x == y
      {
        assert GI.JobOk(g, d, x) && GI.JobOk(g, d, y);
      }
      TasksAreNodes(g, d, rest, n - 1);
      AtMostOne(ts - rest);
      assert ts == rest + (ts - rest);
    }
  }

  lemma AtMostOne(ts: set<Task>)
    requires forall x, y | x in ts && y in ts :: x == y
    ensures |ts| <= 1
  {
    if x :| x in ts {
      assert ts == {x};
    }
  }

  /** With every worker in a submission, as many tasks run as there are workers. */
  lemma {:induction false} EachHoldsOne(r: R.Rs, k: nat)
    requires k <= |r.workers| && forall w | 0 <= w < k :: r.workers[w].Submitting?
    ensures SizeBelow(RI.Hands(r), k) == k
    decreases k
  {
    if k > 0 {
      EachHoldsOne(r, k - 1);
      assert RI.Hands(r)[k - 1] == multiset{r.workers[k - 1].t};
    }
  }

  lemma EachWorkerRunsInJam(size: nat, n: nat, r: R.Rs)
    requires RT.Reachable(size, n, r) && P.Jammed(r)
    ensures |r.bag.running| == n && r.bag.queued !! r.bag.running
  {
    E.ReachableIsEarly(size, n, r);
    EachHoldsOne(r, n);
    SizeOfSum(RI.Hands(r));
    assert |multiset(r.bag.running)| == n;
  }

  lemma UnfinishedAreNodes(g: Graph, b: Bag, d: G.Dag)
    requires GT.Reachable(g, b, d)
    ensures |b.queued + b.running| <= |g|
  {
    GT.ReachableHasInv(g, b, d);
    var ts := b.queued + b.running;
    forall t | t in ts
      ensures t in d.jobs && d.jobs[t].node < |g|
    {
      assert GI.JobOk(g, d, t);
    }
    TasksAreNodes(g, d, ts, |g|);
  }

  /** A jam takes as many nodes as the ring has slots and two more for each worker. */
  lemma JamNeedsNodes(g: Graph, size: nat, n: nat, r: R.Rs, d: G.Dag)
    requires InStep(g, size, n, r, d) && P.Jammed(r) && n >= 1
    ensures |g| >= size + 2 * n
  {
    P.SizeStays(size, n, r);
    EachWorkerRunsInJam(size, n, r);
    UnfinishedAreNodes(g, r.bag, d);
  }

  /**
   * On the ring scheduler, with no more sources than slots and fewer nodes than slots and twice the workers,
   * every reachable state of an execution can be continued until `run` returns, cycles or not.
   */
  lemma ExecuteCanAlwaysReturn(g: Graph, size: nat, n: nat, r: R.Rs, d: G.Dag) returns (r': R.Rs, d': G.Dag)
    requires RingReachable(g, size, n, r, d) && SourcesFit(g, size) && n >= 1 && |g| < size + 2 * n
    ensures RingLeads(g, r, d, r', d') && r'.main.Returned? && d'.driver.Returned?
  {
    r', d' := ExecuteCanReturnOrJam(g, size, n, r, d);
    if P.Jammed(r') {
      JamNeedsNodes(g, size, n, r', d');
    }
  }

  // ---------------------------------------------------------------- one worker and a wide node

  /** Every edge into `u` comes from `v`. */
  ghost predicate OnlyAfter(g: Graph, v: nat, u: nat) {
    u < |g| && Edge(g, v, u) && forall w: nat | Edge(g, w, u) :: w == v
  }

  ghost predicate AllOnlyAfter(g: Graph, v: nat, kids: set<nat>) {
    v < |g| && forall u | u in kids :: OnlyAfter(g, v, u)
  }

  /** While the task of `v` is not over, those of its children are waiting to start. */
  ghost predicate KidsWait(g: Graph, d: G.Dag, v: nat, kids: set<nat>) {
    && v < |g| == |d.status| && (forall u | u in kids :: u < |g|)
    && (d.status[v].HasJob? ==> d.status[v].t in d.jobs && !d.jobs[d.status[v].t].stage.Finished?)
    && (forall u | u in kids && d.status[u].HasJob? ::
          d.status[u].t in d.jobs && d.jobs[d.status[u].t].stage.Queued?)
  }

  /** A child has a task only after its parent's function. */
  lemma ParentIsAtWork(g: Graph, b: Bag, d: G.Dag, v: nat, u: nat)
    requires GI.Inv(g, b, d) && OnlyAfter(g, v, u) && d.status[u].HasJob?
    ensures GI.HasBegun(d, v)
  {
    DS.PredecessorsHaveEnded(g, b, d, v, u);
  }

  lemma OneWorkerRunsOne(size: nat, r: R.Rs, t: Task, x: Task)
    requires RT.Reachable(size, 1, r) && t in r.bag.running && x in r.bag.running
    ensures t == x
  {
    E.ReachableIsEarly(size, 1, r);
    assert RI.Hands(r) == [RI.InHand(r.workers[0])];
    assert RI.Hands(r)[..0] == [];
    assert Sum(RI.Hands(r)) == RI.InHand(r.workers[0]);
    assert t in multiset(r.bag.running) && x in multiset(r.bag.running);
  }

  /** The one worker is busy with `v`, so what starts is no child of `v`. */
  lemma WhatStartsIsNoKid(g: Graph, size: nat, r: R.Rs, d: G.Dag, v: nat, kids: set<nat>, t: Task, r': R.Rs)
    requires GI.Inv(g, r.bag, d) && AllOnlyAfter(g, v, kids) && KidsWait(g, d, v, kids)
    requires G.Enabled(g, d, G.Begin(t)) && RT.Reachable(size, 1, r') && r'.bag == After(r.bag, Start(t))
    ensures d.jobs[t].node !in kids
  {
    var u := d.jobs[t].node;
    assert GI.JobOk(g, d, t);
    if u in kids {
      assert OnlyAfter(g, v, u);
      ParentIsAtWork(g, r.bag, d, v, u);
      OneWorkerRunsOne(size, r', t, d.status[v].t);
    }
  }

  /** At the end of the task of `v`, every child has a task. */
  lemma KidHasJob(g: Graph, b: Bag, d: G.Dag, t: Task, v: nat, u: nat)
    requires GI.Inv(g, b, d) && OnlyAfter(g, v, u) && t in d.jobs && d.jobs[t] == G.Job(v, G.Marked)
    ensures d.status[u].HasJob?
  {
    assert GI.JobOk(g, d, t) && GI.NodeOk(g, d, u);
    if x: nat, k: nat :| x < |g| && EdgeLeft(g, d.passed, x, k, u) {
      assert Edge(g, x, u);
    }
    EdgesArePositive(g, d.passed, u, |g|);
    if d.status[u].HandedBy? {
      var t' := d.status[u].t;
      assert GI.JobOk(g, d, t') && Edge(g, d.jobs[t'].node, u);
    }
  }

  /** There are at least as many tasks as nodes they are for. */
  lemma {:induction false} NodesAreTasks(d: G.Dag, nodes: set<nat>, ts: set<Task>)
    requires forall u | u in nodes :: u < |d.status| && d.status[u].HasJob? && d.status[u].t in ts
    requires forall u | u in nodes :: d.status[u].t in d.jobs && d.jobs[d.status[u].t].node == u
    ensures |nodes| <= |ts|
    decreases nodes
  {
    if u :| u in nodes {
      NodesAreTasks(d, nodes - {u}, ts - {d.status[u].t});
    }
  }

  /** The one worker is running a task, and the driver is inside `run`: nobody is inside the ring. */
  lemma NobodyInRing(size: nat, r: R.Rs)
    requires RT.Reachable(size, 1, r) && R.Worker(r, 0) && r.workers[0].Running?
    ensures I.Inv(r.ring) && RI.Sizes(r) && RI.TasksOk(r) && |r.ring.slots| == size && |r.workers| == 1
    ensures P.NoClaims(r.ring) && RI.MainUnticketed(r) == multiset{}
    ensures forall i | 0 <= i < |r.ring.producers| :: r.ring.producers[i].PIdle?
  {
    E.ReachableIsEarly(size, 1, r);
    RunnerLeavesRing(r);
  }

  lemma RunnerLeavesRing(r: R.Rs)
    requires RI.Sizes(r) && RI.CallsMatch(r) && |r.workers| == 1 && R.Launched(r) && r.workers[0].Running?
    ensures P.NoClaims(r.ring) && RI.MainUnticketed(r) == multiset{}
    ensures forall i | 0 <= i < |r.ring.producers| :: r.ring.producers[i].PIdle?
  {
    assert RI.CallOk(r, 0);
  }

  /** With one worker, and that one running a task, all that is queued is in the ring. */
  lemma QueuedFitsInRing(size: nat, r: R.Rs)
    requires RT.Reachable(size, 1, r) && R.Worker(r, 0) && r.workers[0].Running?
    ensures |r.bag.queued| <= size
  {
    NobodyInRing(size, r);
    SumOfEmpty(RI.Waits(r));
    P.NoClaimsMeansNone(r.ring);
    assert |multiset(r.bag.queued)| == |multiset(RI.Unclaimed(r.ring))|;
    ClosedTicketsFit(r.ring);
  }

  /** With no enqueue under way, the open tickets are all in their slots. */
  lemma ClosedTicketsFit(r: M.Ring)
    requires I.Inv(r) && forall i | 0 <= i < |r.producers| :: r.producers[i].PIdle?
    ensures r.head - r.tail <= |r.slots|
  {
    if r.tail < r.head {
      var p := r.head - 1;
      assert I.Accounted(r, p) && I.SlotOk(r, M.Home(r, p));
      if I.Released(r, p) {
        S.ReleasedIsClaimed(r, p);
      }
    }
  }

  /** If the task of `v` comes to its end, its children have fitted into the ring. */
  lemma KidsFitAtTheEnd(g: Graph, size: nat, r: R.Rs, d: G.Dag, v: nat, kids: set<nat>, t: Task)
    requires GI.Inv(g, r.bag, d) && AllOnlyAfter(g, v, kids) && KidsWait(g, d, v, kids)
    requires RT.Reachable(size, 1, r) && R.Worker(r, 0) && r.workers[0].Running?
    requires t in d.jobs && d.jobs[t] == G.Job(v, G.Marked)
    ensures |kids| <= size
  {
    forall u | u in kids
      ensures d.status[u].HasJob? && GI.NodeOk(g, d, u)
    {
      assert OnlyAfter(g, v, u);
      KidHasJob(g, r.bag, d, t, v, u);
    }
    NodesAreTasks(d, kids, r.bag.queued);
    QueuedFitsInRing(size, r);
  }

  lemma FinisherRuns(size: nat, r: R.Rs, s: R.RsStep)
    requires RT.Reachable(size, 1, r) && R.Enabled(r, s) && R.LabelOf(r, s).Finish?
    ensures R.Worker(r, 0) && r.workers[0].Running?
  {
    P.SizeStays(size, 1, r);
    OnlyFinishTask(r, s);
  }

  lemma OnlyFinishTask(r: R.Rs, s: R.RsStep)
    requires R.Enabled(r, s) && R.LabelOf(r, s).Finish?
    ensures s.FinishTask?
  {
  }

  lemma MoveKeepsKids(g: Graph, size: nat, r: R.Rs, d: G.Dag, m: Move<R.RsStep>, r': R.Rs, d': G.Dag,
                      v: nat, kids: set<nat>)
    requires InStep(g, size, 1, r, d) && RingNext(g, r, d, m, r', d') && InStep(g, size, 1, r', d')
    requires AllOnlyAfter(g, v, kids) && KidsWait(g, d, v, kids) && |kids| > size
    ensures KidsWait(g, d', v, kids)
  {
    GT.ReachableHasInv(g, r.bag, d);
    if !m.SchedulerAlone? {
      match m.d
      case Begin(t) => BeginKeepsKids(g, size, r, d, t, v, kids, r');
      case Finish(t) =>
        FinisherRuns(size, r, m.s);
        FinishKeepsKids(g, size, r, d, t, v, kids);
      case _ => OtherStepKeepsKids(g, r.bag, d, m.d, v, kids);
    }
  }

  lemma BeginKeepsKids(g: Graph, size: nat, r: R.Rs, d: G.Dag, t: Task, v: nat, kids: set<nat>, r': R.Rs)
    requires GI.Inv(g, r.bag, d) && AllOnlyAfter(g, v, kids) && KidsWait(g, d, v, kids)
    requires G.Enabled(g, d, G.Begin(t)) && RT.Reachable(size, 1, r') && r'.bag == After(r.bag, Start(t))
    ensures KidsWait(g, G.Do(g, d, G.Begin(t)), v, kids)
  {
    WhatStartsIsNoKid(g, size, r, d, v, kids, t, r');
    forall u | u in kids && d.status[u].HasJob?
      ensures d.status[u].t != t
    {
      assert GI.NodeOk(g, d, u);
    }
  }

  lemma FinishKeepsKids(g: Graph, size: nat, r: R.Rs, d: G.Dag, t: Task, v: nat, kids: set<nat>)
    requires GI.Inv(g, r.bag, d) && AllOnlyAfter(g, v, kids) && KidsWait(g, d, v, kids) && |kids| > size
    requires G.Enabled(g, d, G.Finish(t)) && RT.Reachable(size, 1, r) && R.Worker(r, 0) && r.workers[0].Running?
    ensures KidsWait(g, G.Do(g, d, G.Finish(t)), v, kids)
  {
    if d.jobs[t].node == v {
      KidsFitAtTheEnd(g, size, r, d, v, kids, t);
    }
    assert GI.NodeOk(g, d, v);
  }

  lemma OtherStepKeepsKids(g: Graph, b: Bag, d: G.Dag, step: G.DagStep, v: nat, kids: set<nat>)
    requires GI.Inv(g, b, d) && G.Enabled(g, d, step) && KidsWait(g, d, v, kids) && !step.Begin? && !step.Finish?
    ensures KidsWait(g, G.Do(g, d, step), v, kids)
  {
  }

  lemma {:induction false} RunKeepsKids(g: Graph, size: nat, r: R.Rs, d: G.Dag, moves: seq<Move<R.RsStep>>, r': R.Rs,
                                        d': G.Dag, v: nat, kids: set<nat>)
    requires InStep(g, size, 1, r, d) && RingReaches(g, r, d, moves, r', d')
    requires AllOnlyAfter(g, v, kids) && KidsWait(g, d, v, kids) && |kids| > size
    ensures InStep(g, size, 1, r', d') && KidsWait(g, d', v, kids)
    decreases |moves|
  {
    if moves != [] {
      var r1, d1 :| RingNext(g, r, d, moves[0], r1, d1) && RingReaches(g, r1, d1, moves[1..], r', d');
      MoveKeepsStep(g, size, 1, r, d, moves[0], r1, d1);
      MoveKeepsKids(g, size, r, d, moves[0], r1, d1, v, kids);
      RunKeepsKids(g, size, r1, d1, moves[1..], r', d', v, kids);
    }
  }

  /** When `run` has returned, the task of a node that no cycle holds up is over. */
  lemma NobodyWaitsAtTheEnd(g: Graph, b: Bag, d: G.Dag, v: nat, kids: set<nat>)
    requires GT.Reachable(g, b, d) && d.driver.Returned? && v < |g| && !ReachableFromCycle(g, v)
    ensures !KidsWait(g, d, v, kids)
  {
    GT.ExactlyTheseNodesRun(g, b, d, v);
    GT.ReachableHasInv(g, b, d);
    GT.AtReturnJobsAreFinished(g, b, d);
    assert GI.HasBegun(d, v);
  }

  /**
   * With one worker, a node that is the only predecessor of more nodes than the ring has slots keeps `execute` from
   * ever returning: its task submits them one by one, and nobody is left to make room.
   */
  lemma FanOutStallsOneWorker(g: Graph, size: nat, r: R.Rs, d: G.Dag, v: nat, kids: set<nat>)
    requires RingReachable(g, size, 1, r, d) && AllOnlyAfter(g, v, kids) && |kids| > size
    requires !ReachableFromCycle(g, v)
    ensures !r.main.Returned? && !d.driver.Returned?
  {
    var moves :| RingReaches(g, R.Init(size, 1), G.Built(g), moves, r, d);
    StartsInStep(g, size, 1);
    RunKeepsKids(g, size, R.Init(size, 1), G.Built(g), moves, r, d, v, kids);
    ReturnedTogether(g, size, 1, r, d);
    if d.driver.Returned? {
      NobodyWaitsAtTheEnd(g, r.bag, d, v, kids);
    }
  }

  /** So, if the sources fit, it can always be brought to a jam. */
  lemma FanOutJamsOneWorker(g: Graph, size: nat, r: R.Rs, d: G.Dag, v: nat, kids: set<nat>)
    returns (r': R.Rs, d': G.Dag)
    requires RingReachable(g, size, 1, r, d) && AllOnlyAfter(g, v, kids) && |kids| > size
    requires !ReachableFromCycle(g, v) && SourcesFit(g, size)
    ensures RingLeads(g, r, d, r', d') && P.Jammed(r')
  {
    r', d' := ExecuteCanReturnOrJam(g, size, 1, r, d);
    LeadsOn(g, R.Init(size, 1), G.Built(g), r, d, r', d');
    FanOutStallsOneWorker(g, size, r', d', v, kids);
  }
}
