/** Every step of graph execution keeps the invariant. */
module DagSteps {
  import opened Wrappers
  import opened BagScheduler
  import opened Graphs
  import opened DagModel
  import opened DagInvariant

  // ---------------------------------------------------------------- counters

  lemma InitHasInv(g: Graph)
    requires WellFormed(g)
    ensures Inv(g, EMPTY_BAG, Built(g))
  {
    var d := Built(g);
    assert d.jobs == map[];
    assert DoneNodes(d) == {};
  }

  /** A running job's next edge is still counted, so its target's counter is positive and blocked. */
  lemma NextEdgeCounts(g: Graph, b: Bag, d: Dag, t: Task)
    requires Inv(g, b, d) && Enabled(g, d, Decrement(t))
    ensures
      var u, k := d.jobs[t].node, d.jobs[t].stage.k;
      && u < |g| && k < |g[u]| && g[u][k] < |g| && d.passed[u] == k
      && d.deps[g[u][k]] >= 1 && d.status[g[u][k]] == Blocked && !d.driver.Seeding?
  {
    var u, k := d.jobs[t].node, d.jobs[t].stage.k;
    var v := g[u][k];
    assert JobOk(g, d, t) && NodeOk(g, d, v);
    assert EdgeLeft(g, d.passed, u, k, v);
    EdgesArePositive(g, d.passed, v, |g|);
  }

  lemma DecrementKeepsCounters(g: Graph, b: Bag, d: Dag, t: Task)
    requires Inv(g, b, d) && Enabled(g, d, Decrement(t))
    ensures Sizes(g, Do(g, d, Decrement(t))) && CountersOk(g, Do(g, d, Decrement(t)))
  {
    NextEdgeCounts(g, b, d, t);
    var d' := Do(g, d, Decrement(t));
    forall v | 0 <= v < |g|
      ensures d'.deps[v] == EdgesInto(g, d'.passed, v, |g|)
    {
      PassingOneEdge(g, d.passed, d.jobs[t].node, v, |g|);
    }
  }

  // ---------------------------------------------------------------- what most steps leave alone

  lemma SameDone(d: Dag, d': Dag)
    requires forall t :: (t in d.jobs && IsDone(d.jobs[t].stage)) <==> (t in d'.jobs && IsDone(d'.jobs[t].stage))
    requires forall t | t in d.jobs && t in d'.jobs :: d'.jobs[t].node == d.jobs[t].node
    ensures DoneNodes(d') == DoneNodes(d)
  {
    forall v | v in DoneNodes(d)
      ensures v in DoneNodes(d')
    {
      var t :| t in d.jobs && IsDone(d.jobs[t].stage) && d.jobs[t].node == v;
      assert t in d'.jobs && IsDone(d'.jobs[t].stage) && d'.jobs[t].node == v;
    }
    forall v | v in DoneNodes(d')
      ensures v in DoneNodes(d)
    {
      var t :| t in d'.jobs && IsDone(d'.jobs[t].stage) && d'.jobs[t].node == v;
      assert t in d.jobs && IsDone(d.jobs[t].stage) && d.jobs[t].node == v;
    }
  }

  lemma SameLog(d: Dag, d': Dag)
    requires LoggedOk(d) && d'.log == d.log
    requires forall v: nat :: HasBegun(d', v) <==> HasBegun(d, v)
    requires forall v: nat :: HasEnded(d', v) <==> HasEnded(d, v)
    ensures LoggedOk(d')
  {
  }

  // ---------------------------------------------------------------- jobs and nodes

  lemma DecrementKeepsNodes(g: Graph, b: Bag, d: Dag, t: Task)
    requires Inv(g, b, d) && Enabled(g, d, Decrement(t))
    ensures
      var d' := Do(g, d, Decrement(t));
      Sizes(g, d') && JobsOk(g, d') && NodesOk(g, d')
  {
    NextEdgeCounts(g, b, d, t);
    var d' := Do(g, d, Decrement(t));
    var u, k := d.jobs[t].node, d.jobs[t].stage.k;
    var v := g[u][k];
    assert JobOk(g, d, t) && NodeOk(g, d, v) && NodeOk(g, d, u);
    forall t2 | t2 in d'.jobs
      ensures JobOk(g, d', t2)
    {
      assert JobOk(g, d, t2);
    }
    forall w | 0 <= w < |g|
      ensures NodeOk(g, d', w)
    {
      assert NodeOk(g, d, w);
    }
  }

  lemma DecrementKeepsInv(g: Graph, b: Bag, d: Dag, t: Task)
    requires Inv(g, b, d) && Enabled(g, d, Decrement(t))
    ensures Inv(g, b, Do(g, d, Decrement(t)))
  {
    DecrementKeepsCounters(g, b, d, t);
    DecrementKeepsNodes(g, b, d, t);
    DecrementKeepsRecords(g, b, d, t);
  }

  lemma DecrementKeepsRecords(g: Graph, b: Bag, d: Dag, t: Task)
    requires Inv(g, b, d) && Enabled(g, d, Decrement(t))
    ensures
      var d' := Do(g, d, Decrement(t));
      RemainingOk(g, d') && Synchronised(b, d') && LoggedOk(d') && OrderOk(g, d') && DriverOk(g, d')
  {
    NextEdgeCounts(g, b, d, t);
    var d' := Do(g, d, Decrement(t));
    assert JobOk(g, d, t);
    SameDone(d, d');
    SameLog(d, d');
  }

  lemma HandKeepsNodes(g: Graph, d: Dag, t: Task, t': Task)
    requires Sizes(g, d) && JobsOk(g, d) && NodesOk(g, d) && Enabled(g, d, Hand(t, t'))
    ensures
      var d' := Do(g, d, Hand(t, t'));
      JobsOk(g, d') && NodesOk(g, d')
  {
    var d' := Do(g, d, Hand(t, t'));
    var u, k := d.jobs[t].node, d.jobs[t].stage.k;
    var v := g[u][k];
    assert JobOk(g, d, t) && NodeOk(g, d, v) && NodeOk(g, d, u);
    assert d.status[v] == HandedBy(t) && u != v;
    forall t2 | t2 in d'.jobs
      ensures JobOk(g, d', t2)
    {
      if t2 != t' {
        assert JobOk(g, d, t2);
        assert d.jobs[t2].node != v;
      }
    }
    forall w | 0 <= w < |g|
      ensures NodeOk(g, d', w)
    {
      assert NodeOk(g, d, w);
    }
  }

  lemma HandKeepsBag(g: Graph, b: Bag, d: Dag, t: Task, t': Task, b': Bag)
    requires Synchronised(b, d) && Enabled(g, d, Hand(t, t')) && BagNext(b, Submit(Some(t), t'), b')
    ensures Synchronised(b', Do(g, d, Hand(t, t')))
  {
  }

  lemma HandKeepsInv(g: Graph, b: Bag, d: Dag, t: Task, t': Task, b': Bag)
    requires Inv(g, b, d) && Enabled(g, d, Hand(t, t')) && BagNext(b, Submit(Some(t), t'), b')
    ensures Inv(g, b', Do(g, d, Hand(t, t')))
  {
    var d' := Do(g, d, Hand(t, t'));
    HandKeepsNodes(g, d, t, t');
    assert JobOk(g, d, t);
    SameDone(d, d');
    HandKeepsBag(g, b, d, t, t', b');
    HandKeepsLog(g, d, d', t, t');
  }

  lemma HandKeepsLog(g: Graph, d: Dag, d': Dag, t: Task, t': Task)
    requires Sizes(g, d) && JobsOk(g, d) && NodesOk(g, d) && LoggedOk(d) && Enabled(g, d, Hand(t, t'))
    requires d' == Do(g, d, Hand(t, t'))
    ensures LoggedOk(d')
  {
    var v := g[d.jobs[t].node][d.jobs[t].stage.k];
    assert JobOk(g, d, t) && NodeOk(g, d, v);
    forall w: nat
      ensures HasBegun(d', w) <==> HasBegun(d, w)
      ensures HasEnded(d', w) <==> HasEnded(d, w)
    {
      if w < |g| {
        assert NodeOk(g, d, w);
      }
    }
  }

  lemma SeedKeepsInv(g: Graph, b: Bag, d: Dag, t: Task, b': Bag)
    requires Inv(g, b, d) && Enabled(g, d, Seed(t)) && BagNext(b, Submit(None, t), b')
    ensures Inv(g, b', Do(g, d, Seed(t)))
  {
    var d' := Do(g, d, Seed(t));
    var v := d.driver.i;
    assert NodeOk(g, d, v);
    forall t2 | t2 in d'.jobs
      ensures JobOk(g, d', t2)
    {
      if t2 != t {
        assert JobOk(g, d, t2);
      }
    }
    forall w | 0 <= w < |g|
      ensures NodeOk(g, d', w)
    {
      assert NodeOk(g, d, w);
    }
    SameDone(d, d');
    SameLog(d, d');
  }

  // ---------------------------------------------------------------- begin and end of a function

  lemma LogGrows(g: Graph, d: Dag, e: FnEvent, log': seq<FnEvent>)
    requires OrderOk(g, d) && log' == d.log + [e] && EventOk(g, log', |d.log|)
    ensures forall i: nat | i < |log'| :: EventOk(g, log', i)
  {
    forall i: nat | i < |log'|
      ensures EventOk(g, log', i)
    {
      if i < |d.log| {
        assert EventOk(g, d.log, i);
        assert log'[..i] == d.log[..i];
      }
    }
  }

  /** Precedence: when a node's job is there, every predecessor's function has ended. */
  lemma PredecessorsHaveEnded(g: Graph, b: Bag, d: Dag, u: nat, v: nat)
    requires Inv(g, b, d) && v < |g| && d.status[v].HasJob? && Edge(g, u, v)
    ensures Ended(u) in d.log
  {
    assert NodeOk(g, d, v) && NodeOk(g, d, u);
    var k :| 0 <= k < |g[u]| && g[u][k] == v;
    if d.passed[u] <= k {
      assert EdgeLeft(g, d.passed, u, k, v);
      EdgesArePositive(g, d.passed, v, |g|);
    } else {
      assert d.status[u].HasJob? && JobOk(g, d, d.status[u].t);
      assert HasEnded(d, u);
    }
  }

  lemma BeginKeepsInv(g: Graph, b: Bag, d: Dag, t: Task, b': Bag)
    requires Inv(g, b, d) && Enabled(g, d, Begin(t)) && BagNext(b, Start(t), b')
    ensures Inv(g, b', Do(g, d, Begin(t)))
  {
    var d' := Do(g, d, Begin(t));
    var v := d.jobs[t].node;
    assert JobOk(g, d, t);
    StageKeepsJobs(g, d, d', t, InFn);
    SameDone(d, d');
    forall u | Edge(g, u, v)
      ensures Ended(u) in d.log
    {
      PredecessorsHaveEnded(g, b, d, u, v);
    }
    assert d'.log[..|d.log|] == d.log;
    LogGrows(g, d, Began(v), d'.log);
  }

  lemma EndFnKeepsInv(g: Graph, b: Bag, d: Dag, t: Task)
    requires Inv(g, b, d) && Enabled(g, d, EndFn(t))
    ensures Inv(g, b, Do(g, d, EndFn(t)))
  {
    var d' := Do(g, d, EndFn(t));
    var v := d.jobs[t].node;
    assert JobOk(g, d, t);
    StageKeepsJobs(g, d, d', t, Looping(0));
    SameDone(d, d');
    assert HasBegun(d, v);
    assert d'.log[..|d.log|] == d.log;
    LogGrows(g, d, Ended(v), d'.log);
  }

  /** Only the stage of one job moves, and no edge is passed. */
  lemma StageKeepsJobs(g: Graph, d: Dag, d': Dag, t: Task, stage: Stage)
    requires Sizes(g, d) && JobsOk(g, d) && NodesOk(g, d) && t in d.jobs
    requires d' == SetStage(d, t, stage).(log := d'.log, remaining := d'.remaining)
    requires !d.jobs[t].stage.Handing? && !stage.Handing? && !stage.Queued?
    requires JobOk(g, d', t)
    ensures JobsOk(g, d') && NodesOk(g, d')
    ensures forall w: nat :: HasBegun(d', w) <==> HasBegun(d, w) || w == d.jobs[t].node
    ensures forall w: nat :: HasEnded(d', w) <==> if w == d.jobs[t].node then PastFn(stage) else HasEnded(d, w)
  {
    forall t2 | t2 in d'.jobs
      ensures JobOk(g, d', t2)
    {
      assert JobOk(g, d, t2);
    }
    forall v | 0 <= v < |g|
      ensures NodeOk(g, d', v)
    {
      assert NodeOk(g, d, v);
    }
    forall w: nat
      ensures HasBegun(d', w) <==> HasBegun(d, w) || w == d.jobs[t].node
      ensures HasEnded(d', w) <==> if w == d.jobs[t].node then PastFn(stage) else HasEnded(d, w)
    {
      if w < |g| {
        assert NodeOk(g, d, w);
      }
    }
  }

  // ---------------------------------------------------------------- done

  lemma MarkKeepsInv(g: Graph, b: Bag, d: Dag, t: Task)
    requires Inv(g, b, d) && Enabled(g, d, Mark(t))
    ensures Inv(g, b, Do(g, d, Mark(t)))
  {
    var d' := Do(g, d, Mark(t));
    var v := d.jobs[t].node;
    assert JobOk(g, d, t);
    StageKeepsJobs(g, d, d', t, Marked);
    assert HasBegun(d, v) && HasEnded(d, v);
    SameLog(d, d');
    MarkAddsNode(g, d, d', t);
  }

  lemma MarkAddsNode(g: Graph, d: Dag, d': Dag, t: Task)
    requires Sizes(g, d) && JobsOk(g, d) && t in d.jobs && !IsDone(d.jobs[t].stage)
    requires d'.jobs == SetStage(d, t, Marked).jobs
    ensures DoneNodes(d') == DoneNodes(d) + {d.jobs[t].node}
    ensures d.jobs[t].node !in DoneNodes(d)
  {
    var v := d.jobs[t].node;
    assert JobOk(g, d, t);
    forall w | w in DoneNodes(d)
      ensures w in DoneNodes(d') && w != v
    {
      var t2 :| t2 in d.jobs && IsDone(d.jobs[t2].stage) && d.jobs[t2].node == w;
      assert JobOk(g, d, t2);
      assert t2 in d'.jobs && IsDone(d'.jobs[t2].stage) && d'.jobs[t2].node == w;
    }
    assert t in d'.jobs && IsDone(d'.jobs[t].stage) && d'.jobs[t].node == v;
  }

  lemma FinishKeepsInv(g: Graph, b: Bag, d: Dag, t: Task, b': Bag)
    requires Inv(g, b, d) && Enabled(g, d, DagStep.Finish(t)) && BagNext(b, Label.Finish(t), b')
    ensures Inv(g, b', Do(g, d, DagStep.Finish(t)))
  {
    var d' := Do(g, d, DagStep.Finish(t));
    assert JobOk(g, d, t);
    StageKeepsJobs(g, d, d', t, Finished);
    assert HasBegun(d, d.jobs[t].node) && HasEnded(d, d.jobs[t].node);
    SameDone(d, d');
    SameLog(d, d');
  }

  lemma DriverKeepsInv(g: Graph, b: Bag, d: Dag, step: DagStep, b': Bag)
    requires Inv(g, b, d) && Enabled(g, d, step) && BagNext(b, LabelOf(step), b')
    requires step.Skip? || step.LaunchRun? || step.ReturnFromRun?
    ensures Inv(g, b', Do(g, d, step))
  {
    var d' := Do(g, d, step);
    SameDone(d, d');
    forall t | t in d'.jobs
      ensures JobOk(g, d', t)
    {
      assert JobOk(g, d, t);
    }
    forall v | 0 <= v < |g|
      ensures NodeOk(g, d', v)
    {
      assert NodeOk(g, d, v);
    }
  }

  // ---------------------------------------------------------------- all steps

  lemma StepKeepsInv(g: Graph, b: Bag, d: Dag, step: DagStep, b': Bag, d': Dag)
    requires Inv(g, b, d) && Next(g, b, d, step, b', d')
    ensures Inv(g, b', d')
  {
    match step
    case Skip => DriverKeepsInv(g, b, d, step, b');
    case Seed(t) => SeedKeepsInv(g, b, d, t, b');
    case LaunchRun => DriverKeepsInv(g, b, d, step, b');
    case Begin(t) => BeginKeepsInv(g, b, d, t, b');
    case EndFn(t) => EndFnKeepsInv(g, b, d, t);
    case Decrement(t) => DecrementKeepsInv(g, b, d, t);
    case Hand(t, t') => HandKeepsInv(g, b, d, t, t', b');
    case Mark(t) => MarkKeepsInv(g, b, d, t);
    case Finish(t) => FinishKeepsInv(g, b, d, t, b');
    case ReturnFromRun => DriverKeepsInv(g, b, d, step, b');
  }
}
