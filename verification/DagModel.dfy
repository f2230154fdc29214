/**
 * Execution of a task graph on a scheduler, as a transition system whose labels the scheduler sees.
 * Each node task runs the node's function, then decrements its successors one by one, submitting
 * those that reach zero, then counts the node as done.
 */
module DagModel {
  import opened Wrappers
  import opened BagScheduler
  import opened Graphs

  /** Where a submitted node task is; `k` counts the successors it has dealt with. */
  datatype Stage =
    | Queued
    | InFn
    | Looping(k: nat)
    | Handing(k: nat)    // has just taken successor `k` to zero and is about to submit it
    | Marked             // has decremented `remaining_nodes_`
    | Finished

  datatype Job = Job(node: nat, stage: Stage)

  /** The driver: walking the node list, inside `run`, or past it. */
  datatype Driver = Seeding(i: nat) | InRun | Returned

  /** History: the user functions begin and end in this order. */
  datatype FnEvent = Began(v: nat) | Ended(v: nat)

  /** History: who is to run a node. */
  datatype Status = Blocked | HandedBy(t: Task) | HasJob(t: Task)

  datatype Dag = Dag(
    deps: seq<int>, remaining: int, jobs: map<Task, Job>, driver: Driver,
    passed: seq<nat>, status: seq<Status>, log: seq<FnEvent>)

  datatype DagStep =
    | Skip | Seed(t: Task) | LaunchRun
    | Begin(t: Task) | EndFn(t: Task) | Decrement(t: Task) | Hand(t: Task, t': Task) | Mark(t: Task) | Finish(t: Task)
    | ReturnFromRun

  /** `depends_on` has incremented each counter once per incoming edge. */
  function Built(g: Graph): Dag {
    Dag(seq(|g|, v requires 0 <= v < |g| => EdgesInto(g, seq(|g|, _ => 0), v, |g|)), |g|, map[], Seeding(0),
        seq(|g|, _ => 0), seq(|g|, _ => Blocked), [])
  }

  predicate At(d: Dag, t: Task, g: Graph) {
    t in d.jobs && d.jobs[t].node < |g| == |d.deps| == |d.passed| == |d.status|
  }

  /** The job is about to deal with its successor `k`. */
  predicate HasSuccessor(g: Graph, d: Dag, t: Task, k: nat)
    requires At(d, t, g)
  {
    k < |g[d.jobs[t].node]| && g[d.jobs[t].node][k] < |g|
  }

  predicate Enabled(g: Graph, d: Dag, step: DagStep) {
    match step
    case Skip => d.driver.Seeding? && d.driver.i < |g| == |d.deps| && d.deps[d.driver.i] != 0
    case Seed(t) =>
      d.driver.Seeding? && d.driver.i < |g| == |d.deps| == |d.status| && d.deps[d.driver.i] == 0 && t !in d.jobs
    case LaunchRun => d.driver.Seeding? && d.driver.i >= |g|
    case Begin(t) => At(d, t, g) && d.jobs[t].stage.Queued?
    case EndFn(t) => At(d, t, g) && d.jobs[t].stage.InFn?
    case Decrement(t) => At(d, t, g) && d.jobs[t].stage.Looping? && HasSuccessor(g, d, t, d.jobs[t].stage.k)
    case Hand(t, t') =>
      At(d, t, g) && d.jobs[t].stage.Handing? && HasSuccessor(g, d, t, d.jobs[t].stage.k) && t' !in d.jobs
    case Mark(t) => At(d, t, g) && d.jobs[t].stage.Looping? && d.jobs[t].stage.k >= |g[d.jobs[t].node]|
    case Finish(t) => At(d, t, g) && d.jobs[t].stage.Marked?
    case ReturnFromRun => d.driver.InRun?
  }

  function LabelOf(step: DagStep): Label {
    match step
    case Seed(t) => Submit(None, t)
    case LaunchRun => Launch
    case Begin(t) => Start(t)
    case Hand(t, t') => Submit(Some(t), t')
    case Finish(t) => BagScheduler.Finish(t)
    case ReturnFromRun => Return
    case _ => Tau
  }

  function SetStage(d: Dag, t: Task, stage: Stage): Dag
    requires t in d.jobs
  {
    d.(jobs := d.jobs[t := d.jobs[t].(stage := stage)])
  }

  function Do(g: Graph, d: Dag, step: DagStep): Dag
    requires Enabled(g, d, step)
  {
    match step
    case Skip => d.(driver := Seeding(d.driver.i + 1))
    case Seed(t) =>
      var v := d.driver.i;
      d.(jobs := d.jobs[t := Job(v, Queued)], status := d.status[v := HasJob(t)], driver := Seeding(v + 1))
    case LaunchRun => d.(driver := InRun)
    case Begin(t) => SetStage(d, t, InFn).(log := d.log + [Began(d.jobs[t].node)])
    case EndFn(t) => SetStage(d, t, Looping(0)).(log := d.log + [Ended(d.jobs[t].node)])
    case Decrement(t) => DoDecrement(g, d, t)
    case Hand(t, t') =>
      var k := d.jobs[t].stage.k;
      var v := g[d.jobs[t].node][k];
      SetStage(d, t, Looping(k + 1))
      .(jobs := SetStage(d, t, Looping(k + 1)).jobs[t' := Job(v, Queued)], status := d.status[v := HasJob(t')])
    case Mark(t) => SetStage(d, t, Marked).(remaining := d.remaining - 1)
    case Finish(t) => SetStage(d, t, Finished)
    case ReturnFromRun => d.(driver := Returned)
  }

  /** `fetch_sub` on the successor's counter; whoever sees the old value one must submit it. */
  function DoDecrement(g: Graph, d: Dag, t: Task): Dag
    requires Enabled(g, d, Decrement(t))
  {
    var u, k := d.jobs[t].node, d.jobs[t].stage.k;
    var v := g[u][k];
    var prev := d.deps[v];
    var d' := SetStage(d, t, if prev == 1 then Handing(k) else Looping(k + 1));
    d'.(deps := d.deps[v := prev - 1], passed := d.passed[u := d.passed[u] + 1],
        status := if prev == 1 then d.status[v := HandedBy(t)] else d.status)
  }

  /** The closing assertion of `execute`. */
  predicate AllDone(d: Dag) {
    d.remaining == 0
  }

  // ---------------------------------------------------------------- graph and scheduler together

  /** The graph and the bag move together: the bag follows the label of each step. */
  ghost predicate Next(g: Graph, b: Bag, d: Dag, step: DagStep, b': Bag, d': Dag) {
    Enabled(g, d, step) && d' == Do(g, d, step) && BagNext(b, LabelOf(step), b')
  }

  ghost predicate Reaches(g: Graph, b: Bag, d: Dag, steps: seq<DagStep>, b': Bag, d': Dag)
    decreases |steps|
  {
    if steps == [] then b == b' && d == d'
    else exists b1, d1 :: Next(g, b, d, steps[0], b1, d1) && Reaches(g, b1, d1, steps[1..], b', d')
  }
}
