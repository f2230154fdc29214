/** What holds of every execution of every finite multigraph, cyclic ones included. */
module DagTheorems {
  import opened Wrappers
  import opened BagScheduler
  import opened Graphs
  import opened DagModel
  import opened DagInvariant
  import opened DagSteps

  lemma {:induction false} RunKeepsInv(g: Graph, b: Bag, d: Dag, steps: seq<DagStep>, b': Bag, d': Dag)
    requires Inv(g, b, d) && Reaches(g, b, d, steps, b', d')
    ensures Inv(g, b', d')
    decreases |steps|
  {
    if steps != [] {
      var b1, d1 :| Next(g, b, d, steps[0], b1, d1) && Reaches(g, b1, d1, steps[1..], b', d');
      StepKeepsInv(g, b, d, steps[0], b1, d1);
      RunKeepsInv(g, b1, d1, steps[1..], b', d');
    }
  }

  ghost predicate Reachable(g: Graph, b: Bag, d: Dag) {
    WellFormed(g) && exists steps :: Reaches(g, EMPTY_BAG, Built(g), steps, b, d)
  }

  lemma ReachableHasInv(g: Graph, b: Bag, d: Dag)
    requires Reachable(g, b, d)
    ensures Inv(g, b, d)
  {
    var steps :| Reaches(g, EMPTY_BAG, Built(g), steps, b, d);
    InitHasInv(g);
    RunKeepsInv(g, EMPTY_BAG, Built(g), steps, b, d);
  }

  /** A run may go on by any step that graph and bag can make. */
  lemma {:induction false} RunGoesOn(g: Graph, b: Bag, d: Dag, steps: seq<DagStep>, b1: Bag, d1: Dag, step: DagStep,
                                     b': Bag, d': Dag)
    requires Reaches(g, b, d, steps, b1, d1) && Next(g, b1, d1, step, b', d')
    ensures Reaches(g, b, d, steps + [step], b', d')
    decreases |steps|
  {
    if steps == [] {
      assert [step][1..] == [];
      assert Reaches(g, b', d', [], b', d');
      assert steps + [step] == [step];
    } else {
      var b0, d0 :| Next(g, b, d, steps[0], b0, d0) && Reaches(g, b0, d0, steps[1..], b1, d1);
      RunGoesOn(g, b0, d0, steps[1..], b1, d1, step, b', d');
      assert (steps + [step])[1..] == steps[1..] + [step];
    }
  }

  lemma ReachableGoesOn(g: Graph, b: Bag, d: Dag, step: DagStep, b': Bag, d': Dag)
    requires Reachable(g, b, d) && Next(g, b, d, step, b', d')
    ensures Reachable(g, b', d')
  {
    var steps :| Reaches(g, EMPTY_BAG, Built(g), steps, b, d);
    RunGoesOn(g, EMPTY_BAG, Built(g), steps, b, d, step, b', d');
  }

  // ---------------------------------------------------------------- precedence, exactly once

  /** A function begins only after the functions of all its predecessors have ended, and only once. */
  lemma PrecedenceHolds(g: Graph, b: Bag, d: Dag, i: nat, v: nat)
    requires Reachable(g, b, d) && i < |d.log| && d.log[i] == Began(v)
    ensures forall u | Edge(g, u, v) :: Ended(u) in d.log[..i]
    ensures forall j | 0 <= j < |d.log| && j != i :: d.log[j] != Began(v)
  {
    ReachableHasInv(g, b, d);
    assert EventOk(g, d.log, i);
    forall j | 0 <= j < |d.log| && j != i
      ensures d.log[j] != Began(v)
    {
      if j < i {
        assert d.log[j] in d.log[..i];
      } else {
        assert EventOk(g, d.log, j);
        assert d.log[i] in d.log[..j];
      }
    }
  }

  /** No two tasks are ever submitted for the same node. */
  lemma SubmittedOnce(g: Graph, b: Bag, d: Dag, t: Task, t': Task)
    requires Reachable(g, b, d) && t in d.jobs && t' in d.jobs && t != t'
    ensures d.jobs[t].node != d.jobs[t'].node
  {
    ReachableHasInv(g, b, d);
    assert JobOk(g, d, t) && JobOk(g, d, t');
  }

  /** Each counter is the number of incoming edges no predecessor has decremented yet; it never goes below zero. */
  lemma CounterMeans(g: Graph, b: Bag, d: Dag, v: nat)
    requires Reachable(g, b, d) && v < |g|
    ensures |d.passed| == |d.deps| == |g|
    ensures d.deps[v] == EdgesInto(g, d.passed, v, |g|) >= 0
    ensures d.deps[v] == 0 <==> !exists u: nat, k: nat :: EdgeLeft(g, d.passed, u, k, v)
  {
    ReachableHasInv(g, b, d);
    EdgesArePositive(g, d.passed, v, |g|);
    if u: nat, k: nat :| EdgeLeft(g, d.passed, u, k, v) {
      assert u < |g| && EdgeLeft(g, d.passed, u, k, v);
    }
  }

  // ---------------------------------------------------------------- which nodes run

  /** If the last node of a path has begun, so has the first, earlier if the path has an edge. */
  lemma {:induction false} BeganBackwards(g: Graph, d: Dag, p: seq<nat>, i: nat)
    requires OrderOk(g, d) && Path(g, p) && i < |d.log| && d.log[i] == Began(Last(p))
    ensures Began(p[0]) in d.log[..i + 1]
    ensures |p| >= 2 ==> Began(p[0]) in d.log[..i]
    decreases |p|
  {
    if |p| >= 2 {
      var q := p[..|p| - 1];
      SubPath(g, p, 0, |p| - 1);
      assert q == p[0..|p| - 1] && EdgeAt(g, p, |p| - 2);
      assert EventOk(g, d.log, i) && Ended(Last(q)) in d.log[..i];
      var j: nat :| j < i && d.log[j] == Ended(Last(q));
      assert EventOk(g, d.log, j);
      var m: nat :| m < j && d.log[m] == Began(Last(q));
      BeganBackwards(g, d, q, m);
    }
  }

  lemma CycleNeverBegins(g: Graph, d: Dag, c: seq<nat>)
    requires OrderOk(g, d) && Cycle(g, c)
    ensures !Ran(d, c[0])
  {
    if Ran(d, c[0]) {
      var i: nat :| i < |d.log| && d.log[i] == Began(c[0]);
      assert EventOk(g, d.log, i);
      BeganBackwards(g, d, c, i);
    }
  }

  /** Nothing on a cycle, nor anything reachable from one, ever begins. */
  lemma BehindCycleNeverBegins(g: Graph, d: Dag, v: nat)
    requires OrderOk(g, d) && ReachableFromCycle(g, v)
    ensures !Ran(d, v)
  {
    var c, p :| FromCycle(g, c, p, v);
    if Ran(d, v) {
      var i: nat :| i < |d.log| && d.log[i] == Began(v);
      BeganBackwards(g, d, p, i);
      var k: nat :| k < |c| && c[k] == p[0];
      var m: nat :| m < |d.log| && d.log[m] == Began(c[k]);
      SubPath(g, c, 0, k + 1);
      BeganBackwards(g, d, c[0..k + 1], m);
      CycleNeverBegins(g, d, c);
    }
  }

  /** The numbers below `n`. */
  function Below(n: nat): (s: set<nat>)
    ensures |s| == n && forall w: nat :: w in s <==> w < n
  {
    if n == 0 then {} else Below(n - 1) + {n - 1}
  }

  function RanNodes(g: Graph, d: Dag): set<nat> {
    set w | w in Below(|g|) && Ran(d, w)
  }

  /** The nodes whose function never began. */
  function NeverRan(g: Graph, d: Dag): set<nat> {
    set w | w in Below(|g|) && !Ran(d, w)
  }

  /** The nodes that never got a job. */
  function BlockedNodes(d: Dag): set<nat> {
    set v | 0 <= v < |d.status| && d.status[v].Blocked?
  }

  lemma AtReturnJobsAreFinished(g: Graph, b: Bag, d: Dag)
    requires Inv(g, b, d) && d.driver.Returned?
    ensures forall t | t in d.jobs :: d.jobs[t].stage.Finished?
    ensures forall v | 0 <= v < |g| && !d.status[v].Blocked? ::
      d.status[v].HasJob? && HasEnded(d, v) && d.passed[v] == |g[v]|
  {
    forall t | t in d.jobs
      ensures d.jobs[t].stage.Finished?
    {
      assert t !in b.queued && t !in b.running;
    }
    forall v | 0 <= v < |g| && !d.status[v].Blocked?
      ensures d.status[v].HasJob? && HasEnded(d, v) && d.passed[v] == |g[v]|
    {
      assert NodeOk(g, d, v);
      assert JobOk(g, d, d.status[v].t);
    }
  }

  /** When the run is over, each node left behind waits for another node left behind. */
  lemma LeftBehindWaitForEachOther(g: Graph, b: Bag, d: Dag)
    requires Inv(g, b, d) && d.driver.Returned?
    ensures NoSources(g, BlockedNodes(d))
  {
    AtReturnJobsAreFinished(g, b, d);
    var s := BlockedNodes(d);
    forall v | v in s
      ensures HasPredecessor(g, s, v)
    {
      assert NodeOk(g, d, v);
      EdgesArePositive(g, d.passed, v, |g|);
      var u: nat, k: nat :| u < |g| && EdgeLeft(g, d.passed, u, k, v);
      assert u in s && Edge(g, u, v);
    }
  }

  /**
   * For any finite multigraph: when `run` returns, the nodes that ran are exactly those not reachable
   * from a cycle, each of them to its end, and `remaining_nodes_` counts the others.
   */
  lemma ExactlyTheseNodesRun(g: Graph, b: Bag, d: Dag, v: nat)
    requires Reachable(g, b, d) && d.driver.Returned? && v < |g|
    ensures Ran(d, v) <==> !ReachableFromCycle(g, v)
    ensures Ran(d, v) <==> Ended(v) in d.log
    ensures d.remaining == |NeverRan(g, d)|
  {
    ReachableHasInv(g, b, d);
    AtReturnJobsAreFinished(g, b, d);
    if d.status[v].Blocked? {
      LeftBehindWaitForEachOther(g, b, d);
      NoSourcesMeansCycle(g, BlockedNodes(d), v);
    } else {
      assert HasEnded(d, v);
    }
    if ReachableFromCycle(g, v) {
      BehindCycleNeverBegins(g, d, v);
    }
    RemainingCountsTheRest(g, b, d);
  }

  lemma DoneNodesRan(g: Graph, b: Bag, d: Dag)
    requires Inv(g, b, d) && d.driver.Returned?
    ensures DoneNodes(d) == RanNodes(g, d)
  {
    AtReturnJobsAreFinished(g, b, d);
    forall w | w in DoneNodes(d)
      ensures w < |g| && Ran(d, w)
    {
      var t :| t in d.jobs && IsDone(d.jobs[t].stage) && d.jobs[t].node == w;
      assert JobOk(g, d, t);
      assert HasBegun(d, w);
    }
    forall w: nat | w < |g| && Ran(d, w)
      ensures w in DoneNodes(d)
    {
      assert HasBegun(d, w) && NodeOk(g, d, w);
      var t := d.status[w].t;
      assert t in d.jobs && IsDone(d.jobs[t].stage) && d.jobs[t].node == w;
    }
  }

  lemma RemainingCountsTheRest(g: Graph, b: Bag, d: Dag)
    requires Inv(g, b, d) && d.driver.Returned?
    ensures d.remaining == |NeverRan(g, d)|
  {
    DoneNodesRan(g, b, d);
    assert Below(|g|) == RanNodes(g, d) + NeverRan(g, d) && RanNodes(g, d) !! NeverRan(g, d);
  }

  /** The closing assertion of `execute` holds if and only if the graph is acyclic. */
  lemma ClosingAssertionIffAcyclic(g: Graph, b: Bag, d: Dag)
    requires Reachable(g, b, d) && d.driver.Returned?
    ensures AllDone(d) <==> Acyclic(g)
  {
    ReachableHasInv(g, b, d);
    RemainingCountsTheRest(g, b, d);
    var rest := NeverRan(g, d);
    if !Acyclic(g) {
      var c :| Cycle(g, c);
      CycleNodesAreReachable(g, c);
      ExactlyTheseNodesRun(g, b, d, c[0]);
      assert c[0] in rest;
    }
    if v :| v in rest {
      ExactlyTheseNodesRun(g, b, d, v);
      var c, p :| FromCycle(g, c, p, v);
      assert Cycle(g, c);
    }
  }
}
