/**
 * Execution of any finite graph on the bag is finite, and gets stuck nowhere but past `run`: cycles do not make
 * it hang.
 */
module DagTermination {
  import opened Wrappers
  import opened BagScheduler
  import opened Graphs
  import opened DagModel
  import opened DagInvariant
  import opened DagSteps
  import opened DagTheorems

  /** Steps still ahead of the task of one node with `edges` successors. */
  function StageWork(stage: Stage, edges: nat): int {
    match stage
    case Queued => 2 * edges + 4
    case InFn => 2 * edges + 3
    case Looping(k) => 2 * (edges - k) + 2
    case Handing(k) => 2 * (edges - k) + 1
    case Marked => 1
    case Finished => 0
  }

  function NodeWork(g: Graph, d: Dag, v: nat): int
    requires v < |g|
  {
    if v < |d.status| && d.status[v].HasJob? && d.status[v].t in d.jobs
    then StageWork(d.jobs[d.status[v].t].stage, |g[v]|)
    else 2 * |g[v]| + 5
  }

  function NodesWork(g: Graph, d: Dag, n: nat): int
    requires n <= |g|
  {
    if n == 0 then 0 else NodesWork(g, d, n - 1) + NodeWork(g, d, n - 1)
  }

  function DriverWork(g: Graph, driver: Driver): int {
    match driver
    case Seeding(i) => |g| - i + 2
    case InRun => 1
    case Returned => 0
  }

  /** Steps still ahead of the whole execution. */
  function Work(g: Graph, d: Dag): int {
    DriverWork(g, d.driver) + NodesWork(g, d, |g|)
  }

  function Edges(g: Graph, n: nat): nat
    requires n <= |g|
  {
    if n == 0 then 0 else Edges(g, n - 1) + |g[n - 1]|
  }

  lemma {:induction false} WorkAtFirst(g: Graph, n: nat)
    requires n <= |g|
    ensures NodesWork(g, Built(g), n) == 5 * n + 2 * Edges(g, n)
  {
    if n > 0 {
      WorkAtFirst(g, n - 1);
    }
  }

  /** Work drops by at least one when it drops at `u` and rises nowhere. */
  lemma {:induction false} WorkDrops(g: Graph, d: Dag, d': Dag, u: nat, n: nat)
    requires n <= |g| && u < |g|
    requires forall v | 0 <= v < |g| :: NodeWork(g, d', v) <= NodeWork(g, d, v)
    requires NodeWork(g, d', u) < NodeWork(g, d, u)
    ensures NodesWork(g, d', n) <= NodesWork(g, d, n) - if u < n then 1 else 0
  {
    if n > 0 {
      WorkDrops(g, d, d', u, n - 1);
    }
  }

  lemma {:induction false} WorkStays(g: Graph, d: Dag, d': Dag, n: nat)
    requires n <= |g| && d'.jobs == d.jobs && d'.status == d.status
    ensures NodesWork(g, d', n) == NodesWork(g, d, n)
  {
    if n > 0 {
      WorkStays(g, d, d', n - 1);
    }
  }

  lemma {:induction false} WorkIsNotNegative(g: Graph, d: Dag, n: nat)
    requires Sizes(g, d) && JobsOk(g, d) && NodesOk(g, d) && n <= |g|
    ensures NodesWork(g, d, n) >= 0
  {
    if n > 0 {
      WorkIsNotNegative(g, d, n - 1);
      assert NodeOk(g, d, n - 1);
      if d.status[n - 1].HasJob? {
        assert JobOk(g, d, d.status[n - 1].t);
      }
    }
  }

  /** A step moves the stage of job `t` (and perhaps gives another node its job): work drops at its node. */
  lemma StageStepDoesWork(g: Graph, d: Dag, step: DagStep)
    requires Sizes(g, d) && JobsOk(g, d) && NodesOk(g, d) && Enabled(g, d, step)
    requires step.Begin? || step.EndFn? || step.Mark? || step.Finish?
    ensures
      var u := d.jobs[step.t].node;
      && NodeWork(g, Do(g, d, step), u) < NodeWork(g, d, u)
      && forall v | 0 <= v < |g| && v != u :: NodeWork(g, Do(g, d, step), v) == NodeWork(g, d, v)
  {
    assert JobOk(g, d, step.t);
    forall v | 0 <= v < |g| && v != d.jobs[step.t].node
      ensures NodeWork(g, Do(g, d, step), v) == NodeWork(g, d, v)
    {
      assert NodeOk(g, d, v);
    }
  }

  lemma DecrementDoesWork(g: Graph, b: Bag, d: Dag, t: Task)
    requires Inv(g, b, d) && Enabled(g, d, Decrement(t))
    ensures
      var d', u := Do(g, d, Decrement(t)), d.jobs[t].node;
      && NodeWork(g, d', u) < NodeWork(g, d, u)
      && forall v | 0 <= v < |g| && v != u :: NodeWork(g, d', v) == NodeWork(g, d, v)
  {
    assert JobOk(g, d, t);
    NextEdgeCounts(g, b, d, t);
    forall v | 0 <= v < |g| && v != d.jobs[t].node
      ensures NodeWork(g, Do(g, d, Decrement(t)), v) == NodeWork(g, d, v)
    {
      assert NodeOk(g, d, v);
    }
  }

  lemma HandDoesWork(g: Graph, d: Dag, t: Task, t': Task)
    requires Sizes(g, d) && JobsOk(g, d) && NodesOk(g, d) && Enabled(g, d, Hand(t, t'))
    ensures
      var d', u := Do(g, d, Hand(t, t')), d.jobs[t].node;
      && NodeWork(g, d', u) < NodeWork(g, d, u)
      && forall v | 0 <= v < |g| && v != u :: NodeWork(g, d', v) <= NodeWork(g, d, v)
  {
    assert JobOk(g, d, t);
    forall v | 0 <= v < |g| && v != d.jobs[t].node
      ensures NodeWork(g, Do(g, d, Hand(t, t')), v) <= NodeWork(g, d, v)
    {
      assert NodeOk(g, d, v);
    }
  }

  lemma SeedDoesWork(g: Graph, d: Dag, t: Task)
    requires Sizes(g, d) && JobsOk(g, d) && NodesOk(g, d) && DriverOk(g, d) && Enabled(g, d, Seed(t))
    ensures
      var d', u := Do(g, d, Seed(t)), d.driver.i;
      && NodeWork(g, d', u) < NodeWork(g, d, u)
      && forall v | 0 <= v < |g| && v != u :: NodeWork(g, d', v) == NodeWork(g, d, v)
  {
    forall v | 0 <= v < |g| && v != d.driver.i
      ensures NodeWork(g, Do(g, d, Seed(t)), v) == NodeWork(g, d, v)
    {
      assert NodeOk(g, d, v);
    }
  }

  lemma StepDoesWork(g: Graph, b: Bag, d: Dag, step: DagStep)
    requires Inv(g, b, d) && Enabled(g, d, step)
    ensures Work(g, Do(g, d, step)) < Work(g, d)
  {
    var d' := Do(g, d, step);
    if step.Skip? || step.LaunchRun? || step.ReturnFromRun? {
      WorkStays(g, d, d', |g|);
    } else {
      match step {
        case Seed(t) => SeedDoesWork(g, d, t);
        case Decrement(t) => DecrementDoesWork(g, b, d, t);
        case Hand(t, t') => HandDoesWork(g, d, t, t');
        case _ => StageStepDoesWork(g, d, step);
      }
      WorkDrops(g, d, d', if step.Seed? then d.driver.i else d.jobs[step.t].node, |g|);
    }
  }

  lemma {:induction false} RunDoesWork(g: Graph, b: Bag, d: Dag, steps: seq<DagStep>, b': Bag, d': Dag)
    requires Inv(g, b, d) && Reaches(g, b, d, steps, b', d')
    ensures |steps| <= Work(g, d) - Work(g, d')
    decreases |steps|
  {
    if steps != [] {
      var b1, d1 :| Next(g, b, d, steps[0], b1, d1) && Reaches(g, b1, d1, steps[1..], b', d');
      StepKeepsInv(g, b, d, steps[0], b1, d1);
      StepDoesWork(g, b, d, steps[0]);
      RunDoesWork(g, b1, d1, steps[1..], b', d');
    }
  }

  /** Every execution is finite, cycles or not: at most six steps a node and two an edge. */
  lemma ExecutionIsBounded(g: Graph, steps: seq<DagStep>, b: Bag, d: Dag)
    requires WellFormed(g) && Reaches(g, EMPTY_BAG, Built(g), steps, b, d)
    ensures |steps| <= 6 * |g| + 2 * Edges(g, |g|) + 2
  {
    InitHasInv(g);
    RunKeepsInv(g, EMPTY_BAG, Built(g), steps, b, d);
    RunDoesWork(g, EMPTY_BAG, Built(g), steps, b, d);
    WorkAtFirst(g, |g|);
    WorkIsNotNegative(g, d, |g|);
  }

  lemma {:induction false} FreshTask(s: set<Task>) returns (t: Task)
    ensures t !in s && forall x | x in s :: x < t
    decreases |s|
  {
    if s == {} {
      t := 0;
    } else {
      var x :| x in s;
      var t' := FreshTask(s - {x});
      t := if x < t' then t' else x + 1;
      forall y | y in s
        ensures y < t
      {
        assert y != x ==> y in s - {x};
      }
    }
  }

  /** The next step of an unfinished job. */
  function StepOf(g: Graph, d: Dag, t: Task, unused: Task): DagStep
    requires t in d.jobs && d.jobs[t].node < |g|
  {
    match d.jobs[t].stage
    case Queued => Begin(t)
    case InFn => EndFn(t)
    case Looping(k) => if k < |g[d.jobs[t].node]| then Decrement(t) else Mark(t)
    case Handing(k) => Hand(t, unused)
    case Marked => DagStep.Finish(t)
    case Finished => Skip
  }

  // ---------------------------------------------------------------- the next step

  /** While the node list is walked there is a next step of the walk. */
  lemma SeedingStep(g: Graph, b: Bag, d: Dag) returns (step: DagStep)
    requires Reachable(g, b, d) && d.driver.Seeding?
    ensures Enabled(g, d, step) && !b.launched
    ensures step.Skip? || step.LaunchRun? || (step.Seed? && Unseen(b, step.t))
  {
    ReachableHasInv(g, b, d);
    var unused := FreshTask(d.jobs.Keys);
    step := if d.driver.i >= |g| then LaunchRun else if d.deps[d.driver.i] == 0 then Seed(unused) else Skip;
  }

  /** A queued task can begin. */
  lemma QueuedStep(g: Graph, b: Bag, d: Dag, t: Task)
    requires Reachable(g, b, d) && t in b.queued
    ensures Enabled(g, d, Begin(t))
  {
    ReachableHasInv(g, b, d);
    assert JobOk(g, d, t);
  }

  /** A running task has a next step. */
  lemma RunningStep(g: Graph, b: Bag, d: Dag, t: Task) returns (step: DagStep)
    requires Reachable(g, b, d) && t in b.running
    ensures Enabled(g, d, step)
    ensures
      || step == EndFn(t) || step == Decrement(t) || step == Mark(t) || step == DagStep.Finish(t)
      || (step.Hand? && step.t == t && Unseen(b, step.t'))
  {
    ReachableHasInv(g, b, d);
    assert JobOk(g, d, t);
    var unused := FreshTask(d.jobs.Keys);
    step := StepOf(g, d, t, unused);
  }

  lemma ReachableWork(g: Graph, b: Bag, d: Dag)
    requires Reachable(g, b, d)
    ensures Work(g, d) >= 0
  {
    ReachableHasInv(g, b, d);
    WorkIsNotNegative(g, d, |g|);
  }

  lemma ReachableStepWorks(g: Graph, b: Bag, d: Dag, step: DagStep)
    requires Reachable(g, b, d) && Enabled(g, d, step)
    ensures Work(g, Do(g, d, step)) < Work(g, d)
  {
    ReachableHasInv(g, b, d);
    StepDoesWork(g, b, d, step);
  }

  /** Where the driver is, the bag knows. */
  lemma DriverInBag(g: Graph, b: Bag, d: Dag)
    requires Reachable(g, b, d)
    ensures b.launched == !d.driver.Seeding? && b.returned == d.driver.Returned?
  {
    ReachableHasInv(g, b, d);
  }

  /** On a bag, which takes every submission at once, no execution is ever stuck before `run` has returned. */
  lemma BagExecutionIsNeverStuck(g: Graph, b: Bag, d: Dag)
    requires Reachable(g, b, d) && !d.driver.Returned?
    ensures exists step, b', d' :: Next(g, b, d, step, b', d')
  {
    DriverInBag(g, b, d);
    var step;
    if d.driver.Seeding? {
      step := SeedingStep(g, b, d);
    } else if t :| t in b.running {
      step := RunningStep(g, b, d, t);
    } else if t :| t in b.queued {
      QueuedStep(g, b, d, t);
      step := Begin(t);
    } else {
      step := ReturnFromRun;
    }
    assert Next(g, b, d, step, After(b, LabelOf(step)), Do(g, d, step));
  }
}
