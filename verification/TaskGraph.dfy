/**
 * The task graph in the code's own form: nodes with counters and successor lists, wired one edge at a time
 * and then executed.  Ghost fields follow the graph that has been wired and, during execution, the
 * transition system; between any two accesses of a node task the other tasks may do whatever they like.
 */
module TaskGraphs {
  import opened Wrappers
  import opened BagScheduler
  import opened Graphs
  import opened DagModel
  import opened DagInvariant
  import opened DagTheorems

  // ---------------------------------------------------------------- wiring

  lemma {:induction false} CountAppended(s: seq<nat>, x: nat, k: nat, v: nat)
    requires k <= |s|
    ensures CountFrom(s + [x], k, v) == CountFrom(s, k, v) + if x == v then 1 else 0
    decreases |s| - k
  {
    if k < |s| {
      CountAppended(s, x, k + 1, v);
    }
  }

  lemma {:induction false} EdgesAfterWiring(g: Graph, u: nat, v: nat, w: nat, n: nat)
    requires u < |g| && n <= |g|
    ensures
      var zeros := seq(|g|, _ => 0);
      var g' := g[u := g[u] + [v]];
      EdgesInto(g', zeros, w, n) == EdgesInto(g, zeros, w, n) + if u < n && w == v then 1 else 0
  {
    if n > 0 {
      EdgesAfterWiring(g, u, v, w, n - 1);
      CountAppended(g[u], v, 0, w);
    }
  }

  /** One more edge raises the in-degree of its target by one, and no other. */
  lemma InDegreeAfterWiring(g: Graph, u: nat, v: nat, w: nat)
    requires u < |g|
    ensures InDegree(g[u := g[u] + [v]], w) == InDegree(g, w) + if w == v then 1 else 0
  {
    EdgesAfterWiring(g, u, v, w, |g|);
  }

  lemma {:induction false} EdgesWithNewNode(g: Graph, v: nat, n: nat)
    requires WellFormed(g) && n <= |g|
    ensures EdgesInto(g + [[]], seq(|g| + 1, _ => 0), v, n) == EdgesInto(g, seq(|g|, _ => 0), v, n)
    ensures v >= |g| ==> EdgesInto(g, seq(|g|, _ => 0), v, n) == 0
  {
    if n > 0 {
      EdgesWithNewNode(g, v, n - 1);
      CountIsPositive(g[n - 1], 0, v);
    }
  }

  /** A new node has no edges, in or out, and changes no other in-degree. */
  lemma InDegreeWithNewNode(g: Graph, v: nat)
    requires WellFormed(g) && v <= |g|
    ensures InDegree(g + [[]], v) == if v < |g| then InDegree(g, v) else 0
  {
    EdgesWithNewNode(g, v, |g|);
    assert (g + [[]])[|g|] == [];
  }

  // ---------------------------------------------------------------- runs

  /** Whose step it is: a node task's or the driver's. */
  function By(step: DagStep): Option<Task> {
    match step
    case Begin(t) => Some(t)
    case EndFn(t) => Some(t)
    case Decrement(t) => Some(t)
    case Hand(t, _) => Some(t)
    case Mark(t) => Some(t)
    case Finish(t) => Some(t)
    case _ => None
  }

  /** What the steps of others leave to node task `t`, or to the driver. */
  predicate Unmoved(me: Option<Task>, d: Dag, d': Dag) {
    && d.jobs.Keys <= d'.jobs.Keys
    && match me
       case Some(t) => t in d.jobs ==> d'.jobs[t] == d.jobs[t]
       case None => d'.driver == d.driver
  }

  /** Any step of another task respects what `Others` promises below. */
  lemma OthersLeaveMine(me: Option<Task>, g: Graph, d: Dag, step: DagStep)
    requires Enabled(g, d, step) && By(step) != me
    ensures Unmoved(me, d, Do(g, d, step))
  {
  }

  /** An unused task number is one the bag has not seen. */
  lemma UnusedIsUnseen(g: Graph, b: Bag, d: Dag, t: Task)
    requires Reachable(g, b, d)
    ensures t !in d.jobs ==> Unseen(b, t)
    ensures b.launched == !d.driver.Seeding? && b.returned == d.driver.Returned?
    ensures |d.deps| == |d.passed| == |d.status| == |g|
  {
    ReachableHasInv(g, b, d);
  }

  /** A job's node is a node, and its place in the successor list a place. */
  lemma JobInRange(g: Graph, b: Bag, d: Dag, t: Task)
    requires Reachable(g, b, d) && t in d.jobs
    ensures |d.deps| == |d.passed| == |d.status| == |g| && d.jobs[t].node < |g|
    ensures d.jobs[t].stage.Handing? ==> d.jobs[t].stage.k < |g[d.jobs[t].node]|
  {
    ReachableHasInv(g, b, d);
    assert JobOk(g, d, t);
  }

  /** Where the bag has a job. */
  lemma JobInBag(g: Graph, b: Bag, d: Dag, t: Task)
    requires Reachable(g, b, d) && t in d.jobs
    ensures b.launched == !d.driver.Seeding?
    ensures t in b.queued <==> d.jobs[t].stage.Queued?
    ensures t in b.running <==> !d.jobs[t].stage.Queued? && !d.jobs[t].stage.Finished?
  {
    ReachableHasInv(g, b, d);
  }

  /** A job that has taken a counter to zero may submit the node. */
  lemma MayHand(g: Graph, b: Bag, d: Dag, t: Task, x: Task)
    requires Reachable(g, b, d) && t in d.jobs && d.jobs[t].stage.Handing? && x !in d.jobs
    ensures Enabled(g, d, Hand(t, x)) && Allows(b, LabelOf(Hand(t, x)))
    ensures d.jobs[t].node < |g| && d.jobs[t].stage.k < |g[d.jobs[t].node]|
  {
    ReachableHasInv(g, b, d);
    assert JobOk(g, d, t);
  }

  /** All that submitting does: the node has its job, and the submitting job moves on. */
  lemma HandDoes(g: Graph, d: Dag, t: Task, x: Task)
    requires Enabled(g, d, Hand(t, x))
    ensures
      var d', Job(v, stage) := Do(g, d, Hand(t, x)), d.jobs[t];
      && d'.deps == d.deps && d'.remaining == d.remaining && d'.driver == d.driver
      && d'.jobs == d.jobs[t := Job(v, Looping(stage.k + 1))][x := Job(g[v][stage.k], Queued)]
  {
  }

  /** All that a decrement does: one counter drops by one, and the job moves on, to a submission from one. */
  lemma DecrementDoes(g: Graph, d: Dag, t: Task)
    requires Enabled(g, d, Decrement(t))
    ensures
      var d', Job(v, stage) := Do(g, d, Decrement(t)), d.jobs[t];
      var w := g[v][stage.k];
      && d'.deps == d.deps[w := d.deps[w] - 1] && d'.remaining == d.remaining && d'.driver == d.driver
      && d'.jobs == d.jobs[t := Job(v, if d.deps[w] == 1 then Handing(stage.k) else Looping(stage.k + 1))]
  {
  }

  /** A finished job has run its node's function and passed all its edges. */
  lemma FinishedMeans(g: Graph, b: Bag, d: Dag, t: Task)
    requires Reachable(g, b, d) && t in d.jobs && d.jobs[t].stage.Finished?
    ensures d.jobs[t].node < |g| == |d.passed| && d.passed[d.jobs[t].node] == |g[d.jobs[t].node]|
    ensures Ended(d.jobs[t].node) in d.log
  {
    ReachableHasInv(g, b, d);
    assert JobOk(g, d, t) && HasEnded(d, d.jobs[t].node);
  }

  /** Once the walk is over, every node without incoming edges has its task. */
  lemma SourcesHaveJobs(g: Graph, b: Bag, d: Dag)
    requires Reachable(g, b, d) && !d.driver.Seeding?
    ensures |d.status| == |g| && forall v | 0 <= v < |g| && InDegree(g, v) == 0 :: d.status[v].HasJob?
  {
    ReachableHasInv(g, b, d);
    forall v | 0 <= v < |g| && InDegree(g, v) == 0
      ensures d.status[v].HasJob?
    {
      SourceHasJob(g, b, d, v);
    }
  }

  lemma SourceHasJob(g: Graph, b: Bag, d: Dag, v: nat)
    requires Inv(g, b, d) && !d.driver.Seeding? && v < |g| && InDegree(g, v) == 0
    ensures d.status[v].HasJob?
  {
    assert NodeOk(g, d, v);
    var none := seq(|g|, _ => 0);
    EdgesArePositive(g, none, v, |g|);
    EdgesArePositive(g, d.passed, v, |g|);
    if u: nat, k: nat :| u < |g| && EdgeLeft(g, d.passed, u, k, v) {
      assert EdgeLeft(g, none, u, k, v);
    }
    if d.status[v].HandedBy? {
      var Job(u, stage) := d.jobs[d.status[v].t];
      assert EdgeLeft(g, none, u, stage.k, v);
    }
  }

  lemma ReturnMeans(g: Graph, b: Bag, d: Dag)
    requires Reachable(g, b, d) && d.driver.Returned?
    ensures AllDone(d) <==> Acyclic(g)
    ensures forall v | 0 <= v < |g| :: Ran(d, v) <==> !ReachableFromCycle(g, v)
  {
    ClosingAssertionIffAcyclic(g, b, d);
    forall v | 0 <= v < |g|
      ensures Ran(d, v) <==> !ReachableFromCycle(g, v)
    {
      ExactlyTheseNodesRun(g, b, d, v);
    }
  }

  // ---------------------------------------------------------------- the objects

  class DagNode {
    var deps: int                  // `deps_remaining_`
    var successors: seq<DagNode>

    constructor ()
      ensures deps == 0 && successors == []
    {
      deps, successors := 0, [];
    }

    /** `this` is to run only after `pred`; one call, one edge, parallel edges and loops included. */
    method DependsOn(pred: DagNode)
      modifies this`deps, pred`successors
      ensures pred.successors == old(pred.successors) + [this] && deps == old(deps) + 1
    {
      pred.successors := pred.successors + [this];
      deps := deps + 1;
    }

    /** `deps_remaining_.fetch_sub(1)`. */
    method FetchSub() returns (prev: int)
      modifies this`deps
      ensures prev == old(deps) && deps == prev - 1
    {
      prev := deps;
      deps := prev - 1;
    }
  }

  class TaskGraph {
    var nodes: seq<DagNode>
    var remaining: int             // `remaining_nodes_`
    var executing: bool
    var unused: Task               // the identity of the next task to be made
    ghost var g: Graph
    ghost var history: seq<DagStep>
    ghost var b: Bag
    ghost var d: Dag

    /** The node objects are wired like `g`. */
    ghost predicate Wired()
      reads this, nodes
    {
      && |nodes| == |g| && WellFormed(g)
      && (forall u, v | 0 <= u < v < |nodes| :: nodes[u] != nodes[v])
      && (forall u | 0 <= u < |g| :: |nodes[u].successors| == |g[u]|)
      && (forall u, k | 0 <= u < |g| && 0 <= k < |g[u]| :: nodes[u].successors[k] == nodes[g[u][k]])
    }

    /** While the graph is being built each counter is the in-degree of its node. */
    ghost predicate Building()
      reads this, nodes
    {
      && Wired() && !executing
      && forall v | 0 <= v < |g| :: nodes[v].deps == InDegree(g, v)
    }

    /** All accesses so far are a run of graph and bag. */
    ghost predicate Sound()
      reads this
    {
      WellFormed(g) && Reaches(g, EMPTY_BAG, Built(g), history, b, d)
    }

    ghost predicate Valid()
      reads this, nodes
    {
      && Wired() && Sound()
      && |d.deps| == |g| && (forall v | 0 <= v < |g| :: nodes[v].deps == d.deps[v])
      && remaining == d.remaining
      && forall t | t in d.jobs :: t < unused
    }

    constructor ()
      ensures Building() && g == [] && nodes == []
    {
      nodes, remaining, executing, unused := [], 0, false, 0;
      g, history, b, d := [], [], EMPTY_BAG, Built([]);
    }

    method Node() returns (v: nat)
      requires Building()
      modifies this
      ensures Building() && v == |old(g)| && g == old(g) + [[]]
      ensures |nodes| == v + 1 && nodes[..v] == old(nodes) && fresh(nodes[v])
    {
      v := |nodes|;
      var node := new DagNode();
      forall w | 0 <= w <= |g|
        ensures InDegree(g + [[]], w) == if w < |g| then InDegree(g, w) else 0
      {
        InDegreeWithNewNode(g, w);
      }
      nodes := nodes + [node];
      g := g + [[]];
    }

    /** `nodes[v].depends_on(nodes[u])`: the graph gains the edge from `u` to `v`. */
    method AddDependency(v: nat, u: nat)
      requires Building() && v < |g| && u < |g|
      modifies this, nodes
      ensures Building() && nodes == old(nodes) && g == old(g)[u := old(g)[u] + [v]]
    {
      forall w | 0 <= w < |g|
        ensures InDegree(g[u := g[u] + [v]], w) == InDegree(g, w) + if w == v then 1 else 0
      {
        InDegreeAfterWiring(g, u, v, w);
      }
      nodes[v].DependsOn(nodes[u]);
      g := g[u := g[u] + [v]];
    }

    // -------------------------------------------------------------- single accesses

    ghost method Follow(step: DagStep)
      requires Sound() && Enabled(g, d, step) && Allows(b, LabelOf(step))
      modifies this`d, this`b, this`history
      ensures Sound() && d == Do(old(g), old(d), step) && b == After(old(b), LabelOf(step))
      ensures history == old(history) + [step]
    {
      RunGoesOn(g, EMPTY_BAG, Built(g), history, b, d, step, After(b, LabelOf(step)), Do(g, d, step));
      history, b, d := history + [step], After(b, LabelOf(step)), Do(g, d, step);
    }

    /** Any steps of the other tasks.  Only this contract is known of them; see `OthersLeaveMine`. */
    method Others(ghost me: Option<Task>)
      requires Valid()
      modifies this`remaining, this`unused, this`d, this`b, this`history, nodes
      ensures Valid() && Unmoved(me, old(d), d)
      ensures me.Some? && !old(d).driver.Seeding? ==> !d.driver.Seeding?
    {
    }

    // -------------------------------------------------------------- the driver

    /** One node of the walk of `execute` over the node list. */
    method SeedNode(i: nat)
      requires Valid() && d.driver == Seeding(i) && i < |nodes|
      modifies this`unused, this`d, this`b, this`history
      ensures Valid() && d.driver == Seeding(i + 1) && d.deps == old(d).deps
      ensures |d.status| == |old(d).status| == |g|
      ensures d.status[i].HasJob? <==> d.deps[i] == 0 || old(d).status[i].HasJob?
      ensures forall v | 0 <= v < |g| && v != i :: d.status[v] == old(d).status[v]
    {
      UnusedIsUnseen(g, b, d, unused);
      if nodes[i].deps == 0 {
        Follow(DagStep.Seed(unused));
        unused := unused + 1;
      } else {
        Follow(Skip);
      }
    }

    /** Before the walk: nothing may be added any more, and every node is still to be done. */
    method BeginExecution()
      requires Building()
      modifies this
      ensures Valid() && executing && nodes == old(nodes) && g == old(g)
      ensures d == Built(g) && b == EMPTY_BAG && history == []
    {
      executing := true;
      remaining := |nodes|;
      unused := 0;
      history, b, d := [], EMPTY_BAG, Built(g);
    }

    /** `execute` up to `run`: submits exactly the nodes without predecessors. */
    method Seed()
      requires Building()
      modifies this
      ensures Valid() && executing && nodes == old(nodes) && g == old(g) && d.driver.InRun?
      ensures |d.status| == |g| && forall v | 0 <= v < |g| :: d.status[v].HasJob? <==> InDegree(g, v) == 0
    {
      BeginExecution();
      var i := 0;
      while i < |nodes|
        invariant i <= |g| && Valid() && executing && nodes == old(nodes) && g == old(g)
        invariant d.driver == Seeding(i) && d.deps == Built(g).deps && |d.status| == |g|
        invariant forall v | 0 <= v < |g| :: d.status[v].HasJob? <==> v < i && InDegree(g, v) == 0
      {
        SeedNode(i);
        i := i + 1;
      }
      UnusedIsUnseen(g, b, d, unused);
      Follow(LaunchRun);
    }

    /**
     * What the scheduler does inside `run`, up to its return if it does return: only when nothing is left.
     * Only the contract is meant; the two schedulers are proved to keep it (`GraphOnSchedulers`).
     */
    method RunScheduler() returns (returned: bool)
      requires Valid() && d.driver.InRun?
      modifies this`remaining, this`unused, this`d, this`b, this`history, nodes
      ensures Valid() && d.driver.InRun? && (returned ==> Allows(b, Return))
    {
      returned := false;
    }

    /**
     * `execute`: every node without predecessors is submitted and `run` is called; if `run` returns, exactly the
     * nodes not reachable from a cycle have run, and the closing assertion, here the result `ok`, holds if and
     * only if the graph is acyclic.
     */
    method Execute() returns (returned: bool, ok: bool)
      requires Building()
      modifies this, nodes
      ensures Valid() && g == old(g) && nodes == old(nodes) && executing
      ensures if returned then d.driver.Returned? else d.driver.InRun?
      ensures |d.status| == |g| && forall v | 0 <= v < |g| && InDegree(g, v) == 0 :: d.status[v].HasJob?
      ensures returned ==> (ok <==> Acyclic(g))
      ensures returned ==> forall v | 0 <= v < |g| :: Ran(d, v) <==> !ReachableFromCycle(g, v)
    {
      Seed();
      returned := RunScheduler();
      ok := false;
      if returned {
        Follow(ReturnFromRun);
        ok := remaining == 0;
        ReturnMeans(g, b, d);
      }
      SourcesHaveJobs(g, b, d);
    }

    // -------------------------------------------------------------- a node task

    ghost predicate HasStage(t: Task, v: nat, stage: Stage)
      reads this
    {
      t in d.jobs && d.jobs[t] == Job(v, stage) && !d.driver.Seeding?
    }

    /** The user's function `fn_` begins and ends, with any time in between. */
    method RunFunction(ghost t: Task, ghost v: nat)
      requires Valid() && HasStage(t, v, Queued)
      modifies this`remaining, this`unused, this`d, this`b, this`history, nodes
      ensures Valid() && HasStage(t, v, Looping(0)) && v < |g|
    {
      JobInRange(g, b, d, t);
      JobInBag(g, b, d, t);
      Follow(Begin(t));
      Others(Some(t));
      EndFunction(t, v);
      Others(Some(t));
    }

    ghost method EndFunction(t: Task, v: nat)
      requires Valid() && HasStage(t, v, InFn)
      modifies this`d, this`b, this`history
      ensures Valid() && HasStage(t, v, Looping(0)) && v < |g|
    {
      JobInRange(g, b, d, t);
      Follow(EndFn(t));
    }

    /** `fetch_sub(1)` on the counter of successor `k`. */
    method DecrementSuccessor(ghost t: Task, v: nat, k: nat) returns (prev: int)
      requires Valid() && HasStage(t, v, Looping(k)) && v < |g| && k < |g[v]|
      modifies this`d, this`b, this`history, nodes
      ensures Valid() && HasStage(t, v, if prev == 1 then Handing(k) else Looping(k + 1))
      ensures g[v][k] < |nodes| && prev == old(nodes[g[v][k]].deps)
      ensures forall u | 0 <= u < |nodes| :: nodes[u].deps == old(nodes[u].deps) - if u == g[v][k] then 1 else 0
    {
      JobInRange(g, b, d, t);
      DecrementDoes(g, d, t);
      prev := CountDown(v, k);
      Follow(Decrement(t));
    }

    /** Successor `k` of node `v` loses one dependency; the wiring stays. */
    method CountDown(v: nat, k: nat) returns (prev: int)
      requires Wired() && v < |g| && k < |g[v]|
      modifies nodes
      ensures Wired() && g[v][k] < |nodes| && prev == old(nodes[g[v][k]].deps)
      ensures forall u | 0 <= u < |nodes| :: nodes[u].deps == old(nodes[u].deps) - if u == g[v][k] then 1 else 0
    {
      ghost var i := g[v][k];
      assert nodes[v].successors[k] == nodes[i];
      prev := nodes[v].successors[k].FetchSub();
      WiringStays();
    }

    /** The wiring does not depend on the counters. */
    twostate lemma WiringStays()
      requires old(Wired()) && nodes == old(nodes) && g == old(g)
      requires forall u | 0 <= u < |nodes| :: nodes[u].successors == old(nodes[u].successors)
      ensures Wired()
    {
    }

    method SubmitSuccessor(ghost t: Task, ghost v: nat, ghost k: nat)
      requires Valid() && HasStage(t, v, Handing(k)) && v < |g|
      modifies this`unused, this`d, this`b, this`history
      ensures Valid() && HasStage(t, v, Looping(k + 1))
      ensures
        var succ := old(unused);
        succ !in old(d).jobs && k < |g[v]| && succ in d.jobs && d.jobs[succ] == Job(g[v][k], Queued)
    {
      MayHand(g, b, d, t, unused);
      HandDoes(g, d, t, unused);
      Follow(Hand(t, unused));
      unused := unused + 1;
    }

    /** One round of the successor loop: whoever takes a counter to zero submits the node. */
    method PassEdge(ghost t: Task, v: nat, k: nat)
      requires Valid() && HasStage(t, v, Looping(k)) && v < |g| && k < |g[v]|
      modifies this`remaining, this`unused, this`d, this`b, this`history, nodes
      ensures Valid() && HasStage(t, v, Looping(k + 1))
    {
      var prev := DecrementSuccessor(t, v, k);
      Others(Some(t));
      if prev == 1 {
        SubmitSuccessor(t, v, k);
        Others(Some(t));
      }
    }

    method WalkSuccessors(ghost t: Task, v: nat)
      requires Valid() && HasStage(t, v, Looping(0)) && v < |g|
      modifies this`remaining, this`unused, this`d, this`b, this`history, nodes
      ensures Valid() && HasStage(t, v, Looping(|g[v]|))
    {
      var k := 0;
      while k < |nodes[v].successors|
        invariant k <= |g[v]| && Valid() && HasStage(t, v, Looping(k))
      {
        PassEdge(t, v, k);
        k := k + 1;
      }
    }

    method MarkDone(ghost t: Task, ghost v: nat)
      requires Valid() && v < |g| && HasStage(t, v, Looping(|g[v]|))
      modifies this`remaining, this`unused, this`d, this`b, this`history, nodes
      ensures Valid() && HasStage(t, v, Finished)
    {
      JobInRange(g, b, d, t);
      remaining := remaining - 1;
      Follow(Mark(t));
      Others(Some(t));
      FinishJob(t, v);
    }

    ghost method FinishJob(t: Task, v: nat)
      requires Valid() && HasStage(t, v, Marked)
      modifies this`d, this`b, this`history
      ensures Valid() && HasStage(t, v, Finished)
    {
      JobInRange(g, b, d, t);
      JobInBag(g, b, d, t);
      Follow(DagStep.Finish(t));
    }

    /**
     * The task of node `v`: whatever the other tasks do meanwhile, its function has run and every edge is passed
     * once.
     */
    method RunNode(ghost t: Task, v: nat)
      requires Valid() && HasStage(t, v, Queued)
      modifies this`remaining, this`unused, this`d, this`b, this`history, nodes
      ensures Valid() && HasStage(t, v, Finished)
      ensures v < |g| == |d.passed| && d.passed[v] == |g[v]| && Ended(v) in d.log
    {
      RunFunction(t, v);
      WalkSuccessors(t, v);
      MarkDone(t, v);
      FinishedMeans(g, b, d, t);
    }
  }
}
