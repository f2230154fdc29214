/**
 * A task graph executed on the work-stealing scheduler, and on the ring scheduler: graph and scheduler
 * move together on the labels they share and on their own otherwise.  What was proved of the graph on
 * the bag carries over to both, down to the accesses of the deques and of the ring.
 */
module GraphOnSchedulers {
  import opened Wrappers
  import opened BagScheduler
  import opened Graphs
  import G = DagModel
  import GT = DagTheorems
  import GI = DagInvariant
  import W = WorkStealingModel
  import WI = WorkStealingInvariant
  import WS = WorkStealingSteps
  import R = RingScheduler
  import RI = RingSchedulerInvariant
  import RS = RingSchedulerSteps

  /** One step of the whole: of the scheduler alone, of the graph alone, or of both at once. */
  datatype Move<S> = SchedulerAlone(s: S) | GraphAlone(d: G.DagStep) | Together(s: S, d: G.DagStep)

  /** The node task whose own code a step of the graph is, if it is a node task's. */
  function TaskOf(step: G.DagStep): Option<Task> {
    match step
    case EndFn(t) => Some(t)
    case Decrement(t) => Some(t)
    case Mark(t) => Some(t)
    case _ => None
  }

  // ---------------------------------------------------------------- work stealing

  /** The thread whose code `step` is, is free to take it: a worker running that task, or `execute` between calls. */
  ghost predicate StealingThreadFree(w: W.Ws, step: G.DagStep) {
    match TaskOf(step)
    case Some(t) => exists v: nat :: v < |w.workers| && w.workers[v] == W.Running(t)
    case None => w.main.Building?
  }

  ghost predicate StealingNext(g: Graph, w: W.Ws, d: G.Dag, m: Move<W.WsStep>, w': W.Ws, d': G.Dag) {
    match m
    case SchedulerAlone(s) => W.Enabled(w, s) && W.LabelOf(w, s) == Tau && w' == W.Do(w, s) && d' == d
    case GraphAlone(step) =>
      && G.Enabled(g, d, step) && G.LabelOf(step) == Tau && StealingThreadFree(w, step)
      && d' == G.Do(g, d, step) && w' == w
    case Together(s, step) =>
      && W.Enabled(w, s) && G.Enabled(g, d, step) && W.LabelOf(w, s) == G.LabelOf(step) != Tau
      && w' == W.Do(w, s) && d' == G.Do(g, d, step)
  }

  ghost predicate StealingReaches(g: Graph, w: W.Ws, d: G.Dag, moves: seq<Move<W.WsStep>>, w': W.Ws, d': G.Dag)
    decreases |moves|
  {
    if moves == [] then w == w' && d == d'
    else exists w1, d1 :: StealingNext(g, w, d, moves[0], w1, d1) && StealingReaches(g, w1, d1, moves[1..], w', d')
  }

  /** One step of both is a step of graph and bag, or none. */
  lemma StealingMove(g: Graph, w: W.Ws, d: G.Dag, m: Move<W.WsStep>, w': W.Ws, d': G.Dag)
    requires WI.Inv(w) && StealingNext(g, w, d, m, w', d')
    ensures WI.Inv(w')
    ensures if m.SchedulerAlone? then w'.bag == w.bag && d' == d else G.Next(g, w.bag, d, m.d, w'.bag, d')
  {
    if !m.GraphAlone? {
      WS.StepKeepsInv(w, m.s);
      WS.StepAllowed(w, m.s);
    }
  }

  /** Whatever graph and work stealing do together, graph and bag can do together. */
  lemma {:induction false} StealingSimulates(g: Graph, w: W.Ws, d: G.Dag, moves: seq<Move<W.WsStep>>, w': W.Ws,
                                             d': G.Dag)
    returns (steps: seq<G.DagStep>)
    requires WI.Inv(w) && StealingReaches(g, w, d, moves, w', d')
    ensures WI.Inv(w') && G.Reaches(g, w.bag, d, steps, w'.bag, d')
    decreases |moves|
  {
    if moves == [] {
      steps := [];
    } else {
      var w1, d1 :| StealingNext(g, w, d, moves[0], w1, d1) && StealingReaches(g, w1, d1, moves[1..], w', d');
      StealingMove(g, w, d, moves[0], w1, d1);
      steps := StealingSimulates(g, w1, d1, moves[1..], w', d');
      if !moves[0].SchedulerAlone? {
        Prepend(g, w.bag, d, moves[0].d, w1.bag, d1, steps, w'.bag, d');
        steps := [moves[0].d] + steps;
      }
    }
  }

  lemma Prepend(g: Graph, b: Bag, d: G.Dag, step: G.DagStep, b1: Bag, d1: G.Dag, rest: seq<G.DagStep>, b': Bag,
                d': G.Dag)
    requires G.Next(g, b, d, step, b1, d1) && G.Reaches(g, b1, d1, rest, b', d')
    ensures G.Reaches(g, b, d, [step] + rest, b', d')
  {
    assert ([step] + rest)[1..] == rest;
  }

  ghost predicate StealingReachable(g: Graph, n: nat, w: W.Ws, d: G.Dag) {
    WellFormed(g) && n >= 1 && exists moves :: StealingReaches(g, W.Init(n), G.Built(g), moves, w, d)
  }

  lemma StealingReachableOnBag(g: Graph, n: nat, w: W.Ws, d: G.Dag)
    requires StealingReachable(g, n, w, d)
    ensures WI.Inv(w) && GT.Reachable(g, w.bag, d)
  {
    var moves :| StealingReaches(g, W.Init(n), G.Built(g), moves, w, d);
    WS.InitHasInv(n);
    var steps := StealingSimulates(g, W.Init(n), G.Built(g), moves, w, d);
  }

  /**
   * On the work-stealing scheduler, for every worker count, interleaving and draw: when `run` returns,
   * exactly the nodes not reachable from a cycle have run, and the closing assertion holds if and only
   * if the graph is acyclic.
   */
  lemma StealingRunsExactlyTheseNodes(g: Graph, n: nat, w: W.Ws, d: G.Dag, v: nat)
    requires StealingReachable(g, n, w, d) && w.main.Returned? && v < |g|
    ensures GI.Ran(d, v) <==> !ReachableFromCycle(g, v)
    ensures G.AllDone(d) <==> Acyclic(g)
  {
    StealingReachableOnBag(g, n, w, d);
    GT.ReachableHasInv(g, w.bag, d);
    GT.ExactlyTheseNodesRun(g, w.bag, d, v);
    GT.ClosingAssertionIffAcyclic(g, w.bag, d);
  }

  /** ... and at any time, a function that has begun has all its predecessors' functions behind it, and began once. */
  lemma StealingKeepsPrecedence(g: Graph, n: nat, w: W.Ws, d: G.Dag, i: nat, v: nat)
    requires StealingReachable(g, n, w, d) && i < |d.log| && d.log[i] == G.Began(v)
    ensures forall u | Edge(g, u, v) :: G.Ended(u) in d.log[..i]
    ensures forall j | 0 <= j < |d.log| && j != i :: d.log[j] != G.Began(v)
  {
    StealingReachableOnBag(g, n, w, d);
    GT.PrecedenceHolds(g, w.bag, d, i, v);
  }

  // ---------------------------------------------------------------- the ring

  ghost predicate RingThreadFree(r: R.Rs, step: G.DagStep) {
    match TaskOf(step)
    case Some(t) => exists v: nat :: v < |r.workers| && r.workers[v] == R.Running(t)
    case None => r.main.Building?
  }

  ghost predicate RingNext(g: Graph, r: R.Rs, d: G.Dag, m: Move<R.RsStep>, r': R.Rs, d': G.Dag) {
    match m
    case SchedulerAlone(s) => R.Enabled(r, s) && R.LabelOf(r, s) == Tau && r' == R.Do(r, s) && d' == d
    case GraphAlone(step) =>
      && G.Enabled(g, d, step) && G.LabelOf(step) == Tau && RingThreadFree(r, step)
      && d' == G.Do(g, d, step) && r' == r
    case Together(s, step) =>
      && R.Enabled(r, s) && G.Enabled(g, d, step) && R.LabelOf(r, s) == G.LabelOf(step) != Tau
      && r' == R.Do(r, s) && d' == G.Do(g, d, step)
  }

  ghost predicate RingReaches(g: Graph, r: R.Rs, d: G.Dag, moves: seq<Move<R.RsStep>>, r': R.Rs, d': G.Dag)
    decreases |moves|
  {
    if moves == [] then r == r' && d == d'
    else exists r1, d1 :: RingNext(g, r, d, moves[0], r1, d1) && RingReaches(g, r1, d1, moves[1..], r', d')
  }

  lemma RingMove(g: Graph, r: R.Rs, d: G.Dag, m: Move<R.RsStep>, r': R.Rs, d': G.Dag)
    requires RI.Inv(r) && RingNext(g, r, d, m, r', d')
    ensures RI.Inv(r')
    ensures if m.SchedulerAlone? then r'.bag == r.bag && d' == d else G.Next(g, r.bag, d, m.d, r'.bag, d')
  {
    if !m.GraphAlone? {
      RS.StepKeepsInv(r, m.s);
      RS.StepAllowed(r, m.s);
    }
  }

  /** Whatever graph and ring scheduler do together, graph and bag can do together. */
  lemma {:induction false} RingSimulates(g: Graph, r: R.Rs, d: G.Dag, moves: seq<Move<R.RsStep>>, r': R.Rs, d': G.Dag)
    returns (steps: seq<G.DagStep>)
    requires RI.Inv(r) && RingReaches(g, r, d, moves, r', d')
    ensures RI.Inv(r') && G.Reaches(g, r.bag, d, steps, r'.bag, d')
    decreases |moves|
  {
    if moves == [] {
      steps := [];
    } else {
      var r1, d1 :| RingNext(g, r, d, moves[0], r1, d1) && RingReaches(g, r1, d1, moves[1..], r', d');
      RingMove(g, r, d, moves[0], r1, d1);
      steps := RingSimulates(g, r1, d1, moves[1..], r', d');
      if !moves[0].SchedulerAlone? {
        Prepend(g, r.bag, d, moves[0].d, r1.bag, d1, steps, r'.bag, d');
        steps := [moves[0].d] + steps;
      }
    }
  }

  ghost predicate RingReachable(g: Graph, size: nat, n: nat, r: R.Rs, d: G.Dag) {
    WellFormed(g) && size >= 2 && exists moves :: RingReaches(g, R.Init(size, n), G.Built(g), moves, r, d)
  }

  lemma RingReachableOnBag(g: Graph, size: nat, n: nat, r: R.Rs, d: G.Dag)
    requires RingReachable(g, size, n, r, d)
    ensures RI.Inv(r) && GT.Reachable(g, r.bag, d)
  {
    var moves :| RingReaches(g, R.Init(size, n), G.Built(g), moves, r, d);
    RS.InitHasInv(size, n);
    var steps := RingSimulates(g, R.Init(size, n), G.Built(g), moves, r, d);
  }

  /** The same theorem on the ring scheduler, for every ring size and worker count. */
  lemma RingRunsExactlyTheseNodes(g: Graph, size: nat, n: nat, r: R.Rs, d: G.Dag, v: nat)
    requires RingReachable(g, size, n, r, d) && r.main.Returned? && v < |g|
    ensures GI.Ran(d, v) <==> !ReachableFromCycle(g, v)
    ensures G.AllDone(d) <==> Acyclic(g)
  {
    RingReachableOnBag(g, size, n, r, d);
    GT.ReachableHasInv(g, r.bag, d);
    GT.ExactlyTheseNodesRun(g, r.bag, d, v);
    GT.ClosingAssertionIffAcyclic(g, r.bag, d);
  }

  lemma RingKeepsPrecedence(g: Graph, size: nat, n: nat, r: R.Rs, d: G.Dag, i: nat, v: nat)
    requires RingReachable(g, size, n, r, d) && i < |d.log| && d.log[i] == G.Began(v)
    ensures forall u | Edge(g, u, v) :: G.Ended(u) in d.log[..i]
    ensures forall j | 0 <= j < |d.log| && j != i :: d.log[j] != G.Began(v)
  {
    RingReachableOnBag(g, size, n, r, d);
    GT.PrecedenceHolds(g, r.bag, d, i, v);
  }
}
