/**
 * Executing a graph on the work-stealing scheduler can always be finished: from every state that any run of
 * the two together reaches, cyclic graphs included, some continuation makes `run` return.
 */
module GraphProgress {
  import opened Wrappers
  import opened BagScheduler
  import opened Graphs
  import opened GraphOnSchedulers
  import opened Multisets
  import G = DagModel
  import GT = DagTheorems
  import T = DagTermination
  import W = WorkStealingModel
  import WI = WorkStealingInvariant
  import WP = WorkStealingProgress
  import WS = WorkStealingSteps
  import WT = WorkStealingTheorems

  ghost predicate StealingLeads(g: Graph, w: W.Ws, d: G.Dag, w': W.Ws, d': G.Dag) {
    exists moves :: StealingReaches(g, w, d, moves, w', d')
  }

  lemma LeadsByOne(g: Graph, w: W.Ws, d: G.Dag, m: Move<W.WsStep>, w1: W.Ws, d1: G.Dag, w': W.Ws, d': G.Dag)
    requires StealingNext(g, w, d, m, w1, d1) && StealingLeads(g, w1, d1, w', d')
    ensures StealingLeads(g, w, d, w', d')
  {
    var moves :| StealingReaches(g, w1, d1, moves, w', d');
    assert ([m] + moves)[1..] == moves;
    assert StealingReaches(g, w, d, [m] + moves, w', d');
  }

  lemma LeadsToItself(g: Graph, w: W.Ws, d: G.Dag)
    ensures StealingLeads(g, w, d, w, d)
  {
    assert StealingReaches(g, w, d, [], w, d);
  }

  /** What the scheduler does unseen, it does whatever the graph's state is. */
  lemma {:induction false} QuietRunLeads(g: Graph, w: W.Ws, d: G.Dag, steps: seq<W.WsStep>, w1: W.Ws, w': W.Ws,
                                         d': G.Dag)
    requires WP.QuietRun(w, steps, w1) && StealingLeads(g, w1, d, w', d')
    ensures StealingLeads(g, w, d, w', d')
    decreases |steps|
  {
    if steps != [] {
      QuietRunLeads(g, W.Do(w, steps[0]), d, steps[1..], w1, w', d');
      LeadsByOne(g, w, d, SchedulerAlone(steps[0]), W.Do(w, steps[0]), d, w', d');
    }
  }

  lemma QuietlyLeads(g: Graph, w: W.Ws, d: G.Dag, w1: W.Ws, w': W.Ws, d': G.Dag)
    requires WP.Quietly(w, w1) && StealingLeads(g, w1, d, w', d')
    ensures StealingLeads(g, w, d, w', d')
  {
    var steps :| WP.QuietRun(w, steps, w1);
    QuietRunLeads(g, w, d, steps, w1, w', d');
  }

  /** Scheduler and graph have each come here by themselves, and agree on the bag. */
  ghost predicate InStep(g: Graph, n: nat, w: W.Ws, d: G.Dag) {
    WT.Reachable(n, w) && GT.Reachable(g, w.bag, d)
  }

  lemma ReachableIsInStep(g: Graph, n: nat, w: W.Ws, d: G.Dag)
    requires StealingReachable(g, n, w, d)
    ensures InStep(g, n, w, d)
  {
    StealingReachableOnBag(g, n, w, d);
    var moves :| StealingReaches(g, W.Init(n), G.Built(g), moves, w, d);
    var none: seq<W.WsStep> := [];
    assert W.Reaches(W.Init(n), none, W.Init(n));
    SchedulerReaches(g, n, W.Init(n), G.Built(g), moves, w, d);
  }

  lemma {:induction false} SchedulerReaches(g: Graph, n: nat, w: W.Ws, d: G.Dag, moves: seq<Move<W.WsStep>>, w': W.Ws,
                                            d': G.Dag)
    requires WT.Reachable(n, w) && StealingReaches(g, w, d, moves, w', d')
    ensures WT.Reachable(n, w')
    decreases |moves|
  {
    if moves != [] {
      var w1, d1 :| StealingNext(g, w, d, moves[0], w1, d1) && StealingReaches(g, w1, d1, moves[1..], w', d');
      if !moves[0].GraphAlone? {
        WT.ReachableGoesOn(n, w, moves[0].s);
      }
      SchedulerReaches(g, n, w1, d1, moves[1..], w', d');
    }
  }

  // ---------------------------------------------------------------- one step of the graph

  /** A step of the graph can be taken now, alone or with a step of the scheduler. */
  ghost predicate CanStep(g: Graph, w: W.Ws, d: G.Dag, m: Move<W.WsStep>) {
    && !m.SchedulerAlone? && G.Enabled(g, d, m.d)
    && match m
       case GraphAlone(step) => G.LabelOf(step) == Tau && StealingThreadFree(w, step)
       case Together(s, step) => W.Enabled(w, s) && W.LabelOf(w, s) == G.LabelOf(step) != Tau
       case SchedulerAlone(_) => false
  }

  function AfterMove(g: Graph, w: W.Ws, m: Move<W.WsStep>): W.Ws
    requires m.Together? ==> W.Enabled(w, m.s)
  {
    if m.Together? then W.Do(w, m.s) else w
  }

  /** Such a step does work, keeps the two in step, and a continuation of what follows continues it. */
  lemma StepLeads(g: Graph, n: nat, w: W.Ws, d: G.Dag, m: Move<W.WsStep>)
    requires InStep(g, n, w, d) && CanStep(g, w, d, m)
    ensures
      var w1, d1 := AfterMove(g, w, m), G.Do(g, d, m.d);
      && StealingNext(g, w, d, m, w1, d1) && InStep(g, n, w1, d1) && 0 <= T.Work(g, d1) < T.Work(g, d)
  {
    var w1, d1 := AfterMove(g, w, m), G.Do(g, d, m.d);
    assert StealingNext(g, w, d, m, w1, d1);
    if m.Together? {
      WT.ReachableGoesOn(n, w, m.s);
    }
    GT.ReachableGoesOn(g, w.bag, d, m.d, w1.bag, d1);
    T.ReachableStepWorks(g, w.bag, d, m.d);
    T.ReachableWork(g, w1.bag, d1);
  }

  /** While the node list is walked, the walk can go on, and `run` can be called behind it. */
  lemma SeedingCanStep(g: Graph, n: nat, w: W.Ws, d: G.Dag) returns (m: Move<W.WsStep>)
    requires InStep(g, n, w, d) && d.driver.Seeding?
    ensures CanStep(g, w, d, m)
  {
    BuildingUntilLaunched(n, w);
    var step := T.SeedingStep(g, w.bag, d);
    m := match step
      case Seed(t) => Together(W.SubmitExternal(t), step)
      case LaunchRun => Together(W.CallRun, step)
      case _ => GraphAlone(step);
  }

  lemma BuildingUntilLaunched(n: nat, w: W.Ws)
    requires WT.Reachable(n, w)
    ensures w.main.Building? == !w.bag.launched && w.main.Returned? == w.bag.returned
    ensures w.main.Stopping? || w.main.Joining? ==> WI.Quiescent(w)
  {
    WT.ReachableMeansInv(n, w);
  }

  /** A running task is in some worker's hand. */
  lemma HandOf(n: nat, w: W.Ws, t: Task) returns (v: nat)
    requires WT.Reachable(n, w) && t in w.bag.running
    ensures W.Worker(w, v)
    ensures (w.workers[v].Running? || w.workers[v].Submitting?) && w.workers[v].t == t
  {
    WT.ReachableMeansInv(n, w);
    assert t in multiset(w.bag.running);
    v := SummandOf(WI.Hands(w), t);
    if !W.Launched(w) {
      WS.NotLaunchedMeansAtTop(w);
    }
  }

  /** The node task in a worker's hand can make its next step. */
  lemma RunningCanStep(g: Graph, n: nat, w: W.Ws, d: G.Dag, t: Task, v: nat) returns (m: Move<W.WsStep>)
    requires InStep(g, n, w, d) && t in w.bag.running && W.Worker(w, v) && w.workers[v] == W.Running(t)
    ensures CanStep(g, w, d, m)
  {
    var step := T.RunningStep(g, w.bag, d, t);
    m := match step
      case Hand(_, x) => Together(W.SubmitChild(v, x), step)
      case Finish(_) => Together(W.FinishTask(v), step)
      case _ => GraphAlone(step);
  }

  /** Some task runs: its worker can bring it on, after finishing a submission it may be in. */
  lemma BusyCanStep(g: Graph, n: nat, w: W.Ws, d: G.Dag) returns (w1: W.Ws, m: Move<W.WsStep>)
    requires InStep(g, n, w, d) && w.bag.running != {}
    ensures WP.Quietly(w, w1) && InStep(g, n, w1, d) && CanStep(g, w1, d, m)
  {
    var t :| t in w.bag.running;
    var v := HandOf(n, w, t);
    if w.workers[v].Submitting? {
      w1 := WP.PushCanFinish(n, w, v);
    } else {
      w1 := w;
      WP.NoStep(w);
    }
    m := RunningCanStep(g, n, w1, d, t, v);
  }

  /** Nothing runs but something is queued: it can start. */
  lemma IdleCanStep(g: Graph, n: nat, w: W.Ws, d: G.Dag) returns (w1: W.Ws, m: Move<W.WsStep>)
    requires InStep(g, n, w, d) && w.main.Waiting? && w.bag.running == {} && w.bag.queued != {}
    ensures WP.Quietly(w, w1) && InStep(g, n, w1, d) && CanStep(g, w1, d, m)
  {
    var s;
    w1, s := WP.QueuedCanStart(n, w);
    WT.ReachableGoesOn(n, w1, s);
    var t := W.LabelOf(w1, s).t;
    T.QueuedStep(g, w1.bag, d, t);
    m := Together(s, G.Begin(t));
  }

  lemma JoiningReturns(g: Graph, w: W.Ws, d: G.Dag)
    requires W.Enabled(w, W.JoinAll) && d.driver.InRun?
    ensures CanStep(g, w, d, Together(W.JoinAll, G.ReturnFromRun))
  {
  }

  /** Nothing is left: `run` can return. */
  lemma DoneCanStep(g: Graph, n: nat, w: W.Ws, d: G.Dag) returns (w1: W.Ws, m: Move<W.WsStep>)
    requires InStep(g, n, w, d) && d.driver.InRun? && WI.Quiescent(w)
    requires w.main.Waiting? || w.main.Stopping? || w.main.Joining?
    ensures WP.Quietly(w, w1) && InStep(g, n, w1, d) && CanStep(g, w1, d, m)
  {
    w1 := WP.DoneCanReturn(n, w);
    JoiningReturns(g, w1, d);
    m := Together(W.JoinAll, G.ReturnFromRun);
  }

  lemma LaunchedCanStep(g: Graph, n: nat, w: W.Ws, d: G.Dag) returns (w1: W.Ws, m: Move<W.WsStep>)
    requires InStep(g, n, w, d) && d.driver.InRun? && !w.main.Draining?
    ensures WP.Quietly(w, w1) && InStep(g, n, w1, d) && CanStep(g, w1, d, m)
  {
    BuildingUntilLaunched(n, w);
    T.DriverInBag(g, w.bag, d);
    if w.bag.running != {} {
      w1, m := BusyCanStep(g, n, w, d);
    } else if w.bag.queued != {} {
      w1, m := IdleCanStep(g, n, w, d);
    } else {
      w1, m := DoneCanStep(g, n, w, d);
    }
  }

  /** Until `run` has returned, the graph can always make another step, perhaps after some of the scheduler. */
  lemma GraphCanStep(g: Graph, n: nat, w: W.Ws, d: G.Dag) returns (w1: W.Ws, m: Move<W.WsStep>)
    requires InStep(g, n, w, d) && !d.driver.Returned?
    ensures WP.Quietly(w, w1) && InStep(g, n, w1, d) && CanStep(g, w1, d, m)
  {
    if d.driver.Seeding? {
      w1 := w;
      WP.NoStep(w);
      m := SeedingCanStep(g, n, w, d);
    } else if w.main.Draining? {
      var w2 := WP.LaunchIsPossible(n, w);
      w1, m := LaunchedCanStep(g, n, w2, d);
      WP.QuietlyThen(w, w2, w1);
    } else {
      w1, m := LaunchedCanStep(g, n, w, d);
    }
  }

  // ---------------------------------------------------------------- to the end

  lemma {:induction false} CanFinish(g: Graph, n: nat, w: W.Ws, d: G.Dag, work: nat) returns (w': W.Ws, d': G.Dag)
    requires InStep(g, n, w, d) && work == T.Work(g, d)
    ensures StealingLeads(g, w, d, w', d') && w'.main.Returned? && d'.driver.Returned?
    decreases work
  {
    if d.driver.Returned? {
      w', d' := w, d;
      LeadsToItself(g, w, d);
      BuildingUntilLaunched(n, w);
      T.DriverInBag(g, w.bag, d);
    } else {
      var w1, m := GraphCanStep(g, n, w, d);
      StepLeads(g, n, w1, d, m);
      var w2, d2 := AfterMove(g, w1, m), G.Do(g, d, m.d);
      w', d' := CanFinish(g, n, w2, d2, T.Work(g, d2));
      LeadsByOne(g, w1, d, m, w2, d2, w', d');
      QuietlyLeads(g, w, d, w1, w', d');
    }
  }

  /**
   * Whatever has happened so far in the execution of any finite graph on any number of workers, some way
   * of going on makes `run` return: no cycle, and no interleaving, gets `execute` stuck on work stealing.
   */
  lemma ExecuteCanAlwaysReturn(g: Graph, n: nat, w: W.Ws, d: G.Dag) returns (w': W.Ws, d': G.Dag)
    requires StealingReachable(g, n, w, d)
    ensures StealingLeads(g, w, d, w', d') && w'.main.Returned? && d'.driver.Returned?
  {
    ReachableIsInStep(g, n, w, d);
    T.ReachableWork(g, w.bag, d);
    w', d' := CanFinish(g, n, w, d, T.Work(g, d));
  }
}
