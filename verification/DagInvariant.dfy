/** The inductive invariant of graph execution on a bag scheduler. */
module DagInvariant {
  import opened Wrappers
  import opened BagScheduler
  import opened Graphs
  import opened DagModel

  ghost predicate Sizes(g: Graph, d: Dag) {
    WellFormed(g) && |d.deps| == |d.passed| == |d.status| == |g|
  }

  /** The user function of the job's node has ended. */
  predicate PastFn(stage: Stage) {
    !stage.Queued? && !stage.InFn?
  }

  predicate IsDone(stage: Stage) {
    stage.Marked? || stage.Finished?
  }

  /** A job is the one job of its node, and has passed as many edges as its stage says. */
  ghost predicate JobOk(g: Graph, d: Dag, t: Task)
    requires Sizes(g, d) && t in d.jobs
  {
    var Job(u, stage) := d.jobs[t];
    && u < |g| && d.status[u] == HasJob(t)
    && match stage
       case Queued => d.passed[u] == 0
       case InFn => d.passed[u] == 0
       case Looping(k) => d.passed[u] == k <= |g[u]|
       case Handing(k) => d.passed[u] == k + 1 <= |g[u]| && d.status[g[u][k]] == HandedBy(t)
       case Marked => d.passed[u] == |g[u]|
       case Finished => d.passed[u] == |g[u]|
  }

  /** A node waits exactly while edges into it are left (or the seeding walk has yet to come by). */
  ghost predicate NodeOk(g: Graph, d: Dag, v: nat)
    requires Sizes(g, d) && v < |g|
  {
    match d.status[v]
    case Blocked => d.passed[v] == 0 && (d.deps[v] > 0 || (d.driver.Seeding? && v >= d.driver.i))
    case HandedBy(t) =>
      && d.passed[v] == 0 && d.deps[v] == 0 && t in d.jobs && d.jobs[t].stage.Handing? && d.jobs[t].node < |g|
      && d.jobs[t].stage.k < |g[d.jobs[t].node]| && g[d.jobs[t].node][d.jobs[t].stage.k] == v
    case HasJob(t) => d.deps[v] == 0 && t in d.jobs && d.jobs[t].node == v
  }

  ghost predicate JobsOk(g: Graph, d: Dag)
    requires Sizes(g, d)
  {
    forall t | t in d.jobs :: JobOk(g, d, t)
  }

  ghost predicate NodesOk(g: Graph, d: Dag)
    requires Sizes(g, d)
  {
    forall v | 0 <= v < |g| :: NodeOk(g, d, v)
  }

  /** Each counter is the number of incoming edges not yet passed, parallel edges included. */
  ghost predicate CountersOk(g: Graph, d: Dag)
    requires Sizes(g, d)
  {
    forall v | 0 <= v < |g| :: d.deps[v] == EdgesInto(g, d.passed, v, |g|)
  }

  /** During the seeding walk nothing runs, and the nodes ahead of the walk are untouched. */
  ghost predicate DriverOk(g: Graph, d: Dag)
    requires Sizes(g, d)
  {
    d.driver.Seeding? ==>
      && d.driver.i <= |g|
      && (forall t | t in d.jobs :: d.jobs[t].stage.Queued?)
      && (forall v | d.driver.i <= v < |g| :: d.status[v] == Blocked)
  }

  function DoneNodes(d: Dag): set<nat> {
    set t | t in d.jobs && IsDone(d.jobs[t].stage) :: d.jobs[t].node
  }

  ghost predicate RemainingOk(g: Graph, d: Dag) {
    d.remaining == |g| - |DoneNodes(d)|
  }

  /** The bag holds each job where its stage says. */
  ghost predicate Synchronised(b: Bag, d: Dag) {
    && (forall t :: t in b.queued <==> t in d.jobs && d.jobs[t].stage.Queued?)
    && (forall t :: t in b.running <==> t in d.jobs && !d.jobs[t].stage.Queued? && !d.jobs[t].stage.Finished?)
    && (forall t :: t in b.done <==> t in d.jobs && d.jobs[t].stage.Finished?)
    && b.launched == !d.driver.Seeding? && b.returned == d.driver.Returned?
    && (b.returned ==> b.queued == {} && b.running == {})
  }

  predicate Ran(d: Dag, v: nat) {
    Began(v) in d.log
  }

  /** The job of `v` exists and has reached a stage that is not queued. */
  ghost predicate HasBegun(d: Dag, v: nat) {
    v < |d.status| && d.status[v].HasJob? && d.status[v].t in d.jobs && !d.jobs[d.status[v].t].stage.Queued?
  }

  ghost predicate HasEnded(d: Dag, v: nat) {
    HasBegun(d, v) && PastFn(d.jobs[d.status[v].t].stage)
  }

  /** The function of `v` has begun, or ended, exactly when the stage of its job says so. */
  ghost predicate LoggedOk(d: Dag) {
    && (forall v: nat :: Began(v) in d.log <==> HasBegun(d, v))
    && (forall v: nat :: Ended(v) in d.log <==> HasEnded(d, v))
  }

  /** The event at position `i` comes after all it has to wait for, and a function begins only once. */
  ghost predicate EventOk(g: Graph, log: seq<FnEvent>, i: nat)
    requires i < |log|
  {
    match log[i]
    case Began(v) => Began(v) !in log[..i] && forall u | Edge(g, u, v) :: Ended(u) in log[..i]
    case Ended(v) => Ended(v) !in log[..i] && Began(v) in log[..i]
  }

  ghost predicate OrderOk(g: Graph, d: Dag) {
    forall i: nat | i < |d.log| :: EventOk(g, d.log, i)
  }

  ghost predicate Inv(g: Graph, b: Bag, d: Dag) {
    && Sizes(g, d) && JobsOk(g, d) && NodesOk(g, d) && CountersOk(g, d) && DriverOk(g, d)
    && RemainingOk(g, d) && Synchronised(b, d) && LoggedOk(d) && OrderOk(g, d)
  }
}
