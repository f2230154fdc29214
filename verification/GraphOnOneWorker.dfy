/**
 * Executing a graph on the ring scheduler with one worker.  Everything then happens in one order, that of Kahn's
 * algorithm with a first-in-first-out list of ready nodes, and `run` can return if and only if that list
 * never gets longer than the ring.
 */
module GraphOnOneWorker {
  import opened Wrappers
  import opened BagScheduler
  import opened Graphs
  import opened GraphOnRing
  import opened GraphOnSchedulers
  import opened Multisets
  import E = RingEarly
  import G = DagModel
  import GI = DagInvariant
  import GT = DagTheorems
  import I = RingInvariant
  import M = RingModel
  import P = RingProgress
  import R = RingScheduler
  import RI = RingSchedulerInvariant
  import RT = RingSchedulerTheorems
  import U = GraphOnRingProgress

  // ---------------------------------------------------------------- Kahn's algorithm

  /** Between nodes; about to pass edge `k` of node `u`; or about to put the target of that edge on the list. */
  datatype Place = Between | At(u: nat, k: nat) | Listing(u: nat, k: nat)

  datatype Kahn = Kahn(place: Place, ready: seq<nat>, deps: seq<int>)

  /** The first `n` nodes without incoming edges, in order. */
  function Sources(g: Graph, n: nat): seq<nat> {
    if n == 0 then [] else Sources(g, n - 1) + if InDegree(g, n - 1) == 0 then [n - 1] else []
  }

  function KahnStart(g: Graph): Kahn {
    Kahn(Between, Sources(g, |g|), seq(|g|, v requires 0 <= v < |g| => InDegree(g, v)))
  }

  function KahnNext(g: Graph, s: Kahn): Kahn {
    match s.place
    case Between => if s.ready == [] then s else Kahn(At(s.ready[0], 0), s.ready[1..], s.deps)
    case At(u, k) =>
      if u < |g| && k < |g[u]| && g[u][k] < |s.deps| then
        var v := g[u][k];
        s.(place := if s.deps[v] == 1 then Listing(u, k) else At(u, k + 1), deps := s.deps[v := s.deps[v] - 1])
      else s.(place := Between)
    case Listing(u, k) =>
      if u < |g| && k < |g[u]| then s.(place := At(u, k + 1), ready := s.ready + [g[u][k]])
      else s.(place := Between)
  }

  function KahnAfter(g: Graph, j: nat): Kahn {
    if j == 0 then KahnStart(g) else KahnNext(g, KahnAfter(g, j - 1))
  }

  /** Up to its step `j` the algorithm has never had more than `size` nodes on its list. */
  ghost predicate FitsUntil(g: Graph, size: nat, j: nat) {
    forall i: nat | i <= j :: |KahnAfter(g, i).ready| <= size
  }

  ghost predicate AlwaysFits(g: Graph, size: nat) {
    forall j: nat :: |KahnAfter(g, j).ready| <= size
  }

  lemma {:induction false} SourcesLength(g: Graph, n: nat)
    ensures |Sources(g, n)| == SourcesBelow(g, n)
    decreases n
  {
    if n > 0 {
      SourcesLength(g, n - 1);
    }
  }

  /** The algorithm is over once nothing is ready and no node is worked on. */
  lemma {:induction false} KahnStops(g: Graph, j: nat, i: nat)
    requires KahnAfter(g, j).place.Between? && KahnAfter(g, j).ready == [] && j <= i
    ensures KahnAfter(g, i) == KahnAfter(g, j)
    decreases i
  {
    if j < i {
      KahnStops(g, j, i - 1);
    }
  }

  // ---------------------------------------------------------------- the line of waiting tasks

  ghost predicate One(r: R.Rs) {
    RI.Sizes(r) && |r.workers| == 1
  }

  function ClaimedTask(r: M.Ring, pc: M.ConsumerPc): seq<Task> {
    match pc
    case Won(pos) => if pos < |r.tickets| then [r.tickets[pos]] else []
    case Took(_, raw) => if raw.Some? then [raw.value] else []
    case _ => []
  }

  function WaitingTask(pc: R.WorkerPc, producer: M.ProducerPc): seq<Task> {
    if pc.Submitting? && producer.PIdle? then [pc.x] else []
  }

  function EarlyTask(pc: R.MainPc, producer: M.ProducerPc): seq<Task> {
    if pc.Enqueuing? && producer.PIdle? then [pc.x] else []
  }

  /** All queued tasks in the order in which they will start. */
  ghost function Line(r: R.Rs): seq<Task>
    requires One(r)
  {
    ClaimedTask(r.ring, r.ring.consumers[0]) + RI.Unclaimed(r.ring)
    + WaitingTask(r.workers[0], r.ring.producers[0]) + EarlyTask(r.main, r.ring.producers[1])
  }

  /** The task the worker is at. */
  function Hand(r: R.Rs): Option<Task>
    requires |r.workers| == 1
  {
    if r.workers[0].Running? || r.workers[0].Submitting? then Some(r.workers[0].t) else None
  }

  lemma SumOfOne(ms: seq<multiset<Task>>)
    requires |ms| == 1
    ensures Sum(ms) == ms[0]
  {
    assert ms[..0] == [];
  }

  lemma SameTasks(line: seq<Task>, q: set<Task>)
    requires multiset(line) == multiset(q)
    ensures |line| == |q| && forall t | t in line :: t in q
  {
    assert |multiset(line)| == |multiset(q)|;
    forall t | t in line
      ensures t in q
    {
      assert t in multiset(line);
    }
  }

  lemma MultisetOfParts(c: seq<Task>, u: seq<Task>, w: seq<Task>, m: seq<Task>)
    ensures multiset(c + u + w + m) == multiset(u) + multiset(c) + multiset(w) + multiset(m)
  {
  }

  lemma LineIsQueued(r: R.Rs)
    requires One(r) && RI.TasksOk(r)
    ensures |Line(r)| == |r.bag.queued| && forall t | t in Line(r) :: t in r.bag.queued
  {
    SumOfOne(RI.Claims(r.ring));
    SumOfOne(RI.Waits(r));
    PartsAreQueued(r);
    SameTasks(Line(r), r.bag.queued);
  }

  lemma PartsAreQueued(r: R.Rs)
    requires One(r) && Sum(RI.Claims(r.ring)) == RI.Claims(r.ring)[0] && Sum(RI.Waits(r)) == RI.Waits(r)[0]
    ensures multiset(Line(r)) == RI.Owed(r.ring) + Sum(RI.Waits(r)) + RI.MainUnticketed(r)
  {
    var c, u := ClaimedTask(r.ring, r.ring.consumers[0]), RI.Unclaimed(r.ring);
    var w, m := WaitingTask(r.workers[0], r.ring.producers[0]), EarlyTask(r.main, r.ring.producers[1]);
    MultisetOfParts(c, u, w, m);
    ClaimedIsClaim(r.ring, r.ring.consumers[0]);
    assert multiset(w) == RI.Waits(r)[0] && multiset(m) == RI.MainUnticketed(r);
  }

  lemma ClaimedIsClaim(r: M.Ring, pc: M.ConsumerPc)
    ensures multiset(ClaimedTask(r, pc)) == RI.Claim(r, pc)
  {
  }

  /** What a label does to the line: submissions join it at the end, and the first in it starts. */
  predicate LineNext(line: seq<Task>, l: Label, line': seq<Task>) {
    match l
    case Submit(_, x) => line' == line + [x]
    case Start(t) => line == [t] + line'
    case _ => line' == line
  }

  /** The worker is at one task from its start to its finish. */
  predicate HandNext(hand: Option<Task>, l: Label, hand': Option<Task>) {
    match l
    case Start(t) => hand == None && hand' == Some(t)
    case Finish(t) => hand == Some(t) && hand' == None
    case Submit(parent, _) => hand' == hand == parent
    case _ => hand' == hand
  }

  /** In the ring a task joins the line when it gets its ticket. */
  lemma TicketJoins(r: M.Ring, i: nat, x: Task, st: M.RingStep)
    requires I.Inv(r) && |r.consumers| == 1 && R.ProducerMay(r, i, x, st)
    ensures
      var r' := M.Do(r, st);
      && r'.consumers == r.consumers
      && RI.Unclaimed(r') == RI.Unclaimed(r) + (if st.Reserve? then [x] else [])
      && ClaimedTask(r', r.consumers[0]) == ClaimedTask(r, r.consumers[0])
  {
    assert I.ConsumerOk(r, r.consumers[0]);
  }

  lemma Joined(c: seq<Task>, u: seq<Task>, w: seq<Task>, m: seq<Task>, c': seq<Task>, u': seq<Task>, w': seq<Task>,
               m': seq<Task>)
    requires c' == c && u' == u + w + m && w' == m' == []
    ensures c' + u' + w' + m' == c + u + w + m
  {
  }

  lemma SubmissionLine(r: R.Rs, step: R.RsStep)
    requires I.Inv(r.ring) && One(r) && RI.CallsMatch(r) && R.Enabled(r, step) && step.ProducerStep?
    ensures One(R.Do(r, step)) && Line(R.Do(r, step)) == Line(r)
  {
    var r' := R.Do(r, step);
    TicketJoins(r.ring, 0, r.workers[0].x, step.st);
    if step.st.Reserve? {
      Joined(ClaimedTask(r.ring, r.ring.consumers[0]), RI.Unclaimed(r.ring),
             WaitingTask(r.workers[0], r.ring.producers[0]), EarlyTask(r.main, r.ring.producers[1]),
             ClaimedTask(r'.ring, r'.ring.consumers[0]), RI.Unclaimed(r'.ring),
             WaitingTask(r'.workers[0], r'.ring.producers[0]), EarlyTask(r'.main, r'.ring.producers[1]));
    }
  }

  lemma EarlySubmissionLine(r: R.Rs, step: R.RsStep)
    requires I.Inv(r.ring) && One(r) && RI.CallOk(r, 0) && R.Enabled(r, step) && step.MainProducerStep?
    ensures One(R.Do(r, step)) && Line(R.Do(r, step)) == Line(r)
  {
    var r' := R.Do(r, step);
    TicketJoins(r.ring, 1, r.main.x, step.st);
    if step.st.Reserve? {
      Joined(ClaimedTask(r.ring, r.ring.consumers[0]), RI.Unclaimed(r.ring),
             WaitingTask(r.workers[0], r.ring.producers[0]), EarlyTask(r.main, r.ring.producers[1]),
             ClaimedTask(r'.ring, r'.ring.consumers[0]), RI.Unclaimed(r'.ring),
             WaitingTask(r'.workers[0], r'.ring.producers[0]), EarlyTask(r'.main, r'.ring.producers[1]));
    }
  }

  lemma ProducerHand(r: R.Rs, step: R.RsStep)
    requires |r.workers| == 1 && R.Enabled(r, step) && (step.MainProducerStep? || step.ProducerStep?)
    ensures R.LabelOf(r, step) == Tau && |R.Do(r, step).workers| == 1 && Hand(R.Do(r, step)) == Hand(r)
  {
  }

  /** Winning the CAS changes nothing in the line: the first unclaimed task becomes the claimed one. */
  lemma ClaimKeepsPlace(r: M.Ring)
    requires I.Inv(r) && |r.consumers| == 1 && M.Enabled(r, M.CasTail(0, false)) && r.tail == r.consumers[0].pos
    ensures
      var r' := M.Do(r, M.CasTail(0, false));
      && r'.consumers == [M.Won(r.tail)] && r.tail < |r.tickets| && ClaimedTask(r, r.consumers[0]) == []
      && ClaimedTask(r', M.Won(r.tail)) == [r.tickets[r.tail]]
      && RI.Unclaimed(r) == [r.tickets[r.tail]] + RI.Unclaimed(r')
  {
    assert I.ConsumerOk(r, r.consumers[0]);
    assert I.SlotOk(r, M.Home(r, r.tail));
  }

  /** Taking the payload and releasing the slot: the task leaves the line at the release. */
  lemma TakingKeepsPlace(r: M.Ring, st: M.RingStep)
    requires I.Inv(r) && |r.consumers| == 1 && M.Enabled(r, st) && (st == M.Exchange(0) || st == M.Release(0))
    ensures
      var r' := M.Do(r, st);
      && |r'.consumers| == 1 && RI.Unclaimed(r') == RI.Unclaimed(r)
      && if st.Release? then
           && r.consumers[0].raw.Some? && ClaimedTask(r, r.consumers[0]) == [r.consumers[0].raw.value]
           && ClaimedTask(r', r'.consumers[0]) == []
         else ClaimedTask(r', r'.consumers[0]) == ClaimedTask(r, r.consumers[0])
  {
    assert I.ConsumerOk(r, r.consumers[0]);
  }

  lemma SearchKeepsPlace(r: M.Ring, st: M.RingStep)
    requires M.Enabled(r, st) && |r.consumers| == 1
    requires st == M.LoadTail(0) || st == M.LoadSequence(0) || st.CasTail?
    requires st.CasTail? ==> st.c == 0 && (st.spurious || r.tail != r.consumers[0].pos)
    ensures
      var r' := M.Do(r, st);
      && |r'.consumers| == 1 && RI.Unclaimed(r') == RI.Unclaimed(r)
      && ClaimedTask(r, r.consumers[0]) == [] == ClaimedTask(r', r'.consumers[0])
  {
  }

  lemma ProducersStay(r: M.Ring, st: M.RingStep)
    requires |r.consumers| == 1 && R.ConsumerMay(r, 0, st)
    ensures M.Do(r, st).producers == r.producers
  {
  }

  /** In the ring a task leaves the line when its slot is released. */
  lemma ReleaseLeaves(r: M.Ring, st: M.RingStep)
    requires I.Inv(r) && |r.consumers| == 1 && !r.consumers[0].CIdle? && R.ConsumerMay(r, 0, st)
    ensures |M.Do(r, st).consumers| == 1 && M.Do(r, st).producers == r.producers
    ensures
      var r' := M.Do(r, st);
      var line := ClaimedTask(r, r.consumers[0]) + RI.Unclaimed(r);
      var line' := ClaimedTask(r', r'.consumers[0]) + RI.Unclaimed(r');
      if st.Release? then r.consumers[0].raw.Some? && line == [r.consumers[0].raw.value] + line' else line' == line
  {
    ProducersStay(r, st);
    if st.Exchange? || st.Release? {
      TakingKeepsPlace(r, st);
    } else if st.CasTail? && r.tail == r.consumers[0].pos && !st.spurious {
      ClaimKeepsPlace(r);
    } else {
      SearchKeepsPlace(r, st);
    }
  }

  lemma Leaves(t: Task, f: seq<Task>, f': seq<Task>, w: seq<Task>, m: seq<Task>)
    requires f == [t] + f'
    ensures f + w + m == [t] + (f' + w + m)
  {
  }

  lemma ConsumerLine(r: R.Rs, w: nat, st: M.RingStep)
    requires I.Inv(r.ring) && One(r) && RI.CallOk(r, 0) && R.Enabled(r, R.ConsumerStep(w, st))
    ensures
      var r' := R.Do(r, R.ConsumerStep(w, st));
      One(r') && LineNext(Line(r), R.LabelOf(r, R.ConsumerStep(w, st)), Line(r'))
  {
    var r' := R.Do(r, R.ConsumerStep(w, st));
    ReleaseLeaves(r.ring, st);
    if st.Release? {
      Leaves(r.ring.consumers[0].raw.value, ClaimedTask(r.ring, r.ring.consumers[0]) + RI.Unclaimed(r.ring),
             ClaimedTask(r'.ring, r'.ring.consumers[0]) + RI.Unclaimed(r'.ring), [],
             EarlyTask(r.main, r.ring.producers[1]));
    }
  }

  lemma ConsumerHand(r: R.Rs, w: nat, st: M.RingStep)
    requires One(r) && R.Enabled(r, R.ConsumerStep(w, st))
    ensures
      var r' := R.Do(r, R.ConsumerStep(w, st));
      |r'.workers| == 1 && HandNext(Hand(r), R.LabelOf(r, R.ConsumerStep(w, st)), Hand(r'))
  {
  }

  lemma JoinsAsLast(f: seq<Task>, x: Task)
    ensures f + [x] + [] == f + [] + [x] == f + [] + [] + [x]
  {
  }

  lemma LoopLine(r: R.Rs, step: R.RsStep)
    requires One(r) && RI.CallOk(r, 0) && RI.CallsMatch(r) && RI.EndOk(r) && R.Enabled(r, step)
    requires !step.MainProducerStep? && !step.ProducerStep? && !step.ConsumerStep?
    ensures One(R.Do(r, step)) && LineNext(Line(r), R.LabelOf(r, step), Line(R.Do(r, step)))
  {
    var front := ClaimedTask(r.ring, r.ring.consumers[0]) + RI.Unclaimed(r.ring);
    if step.SubmitExternal? || step.SubmitChild? {
      JoinsAsLast(front, step.x);
    }
  }

  lemma LoopHand(r: R.Rs, step: R.RsStep)
    requires One(r) && RI.CallOk(r, 0) && RI.EndOk(r) && R.Enabled(r, step)
    requires !step.MainProducerStep? && !step.ProducerStep? && !step.ConsumerStep?
    ensures |R.Do(r, step).workers| == 1 && HandNext(Hand(r), R.LabelOf(r, step), Hand(R.Do(r, step)))
  {
  }

  lemma LineMoves(r: R.Rs, step: R.RsStep)
    requires RI.Inv(r) && One(r) && R.Enabled(r, step)
    ensures One(R.Do(r, step)) && LineNext(Line(r), R.LabelOf(r, step), Line(R.Do(r, step)))
    ensures HandNext(Hand(r), R.LabelOf(r, step), Hand(R.Do(r, step)))
  {
    assert RI.CallOk(r, 0);
    if step.ProducerStep? {
      SubmissionLine(r, step);
      ProducerHand(r, step);
    } else if step.MainProducerStep? {
      EarlySubmissionLine(r, step);
      ProducerHand(r, step);
    } else if step.ConsumerStep? {
      ConsumerLine(r, step.w, step.st);
      ConsumerHand(r, step.w, step.st);
    } else {
      LoopLine(r, step);
      LoopHand(r, step);
    }
  }

  // ---------------------------------------------------------------- the graph follows the algorithm

  function NodeOf(d: G.Dag, t: Task): nat {
    if t in d.jobs then d.jobs[t].node else 0
  }

  function NodesOf(d: G.Dag, ts: seq<Task>): seq<nat> {
    seq(|ts|, i requires 0 <= i < |ts| => NodeOf(d, ts[i]))
  }

  function PlaceOf(g: Graph, d: G.Dag, hand: Option<Task>): Place {
    match hand
    case None => Between
    case Some(t) =>
      if t !in d.jobs then Between
      else
        var u := d.jobs[t].node;
        match d.jobs[t].stage
        case InFn => At(u, 0)
        case Looping(k) => At(u, k)
        case Handing(k) => Listing(u, k)
        case Marked => At(u, if u < |g| then |g[u]| else 0)
        case _ => Between
  }

  /** Where Kahn's algorithm is, with `hand` at work and `line` waiting. */
  function KahnOf(g: Graph, d: G.Dag, hand: Option<Task>, line: seq<Task>): Kahn {
    Kahn(PlaceOf(g, d, hand), NodesOf(d, line), d.deps)
  }

  ghost predicate AllQueued(d: G.Dag, line: seq<Task>) {
    forall i | 0 <= i < |line| :: line[i] in d.jobs && d.jobs[line[i]].stage.Queued?
  }

  /** Passing one edge, ending the function and counting the node move no job to another node. */
  lemma OwnStepFollows(g: Graph, b: Bag, d: G.Dag, step: G.DagStep, t: Task, line: seq<Task>)
    requires GI.Inv(g, b, d) && G.Enabled(g, d, step) && TaskOf(step) == Some(t) && AllQueued(d, line)
    ensures
      var s, s' := KahnOf(g, d, Some(t), line), KahnOf(g, G.Do(g, d, step), Some(t), line);
      if step.Decrement? then s' == KahnNext(g, s) else s' == s
  {
    assert GI.JobOk(g, d, t);
    assert NodesOf(G.Do(g, d, step), line) == NodesOf(d, line);
  }

  lemma HandFollows(g: Graph, b: Bag, d: G.Dag, t: Task, x: Task, line: seq<Task>)
    requires GI.Inv(g, b, d) && G.Enabled(g, d, G.Hand(t, x)) && AllQueued(d, line)
    ensures
      KahnOf(g, G.Do(g, d, G.Hand(t, x)), Some(t), line + [x]) == KahnNext(g, KahnOf(g, d, Some(t), line))
  {
    var d' := G.Do(g, d, G.Hand(t, x));
    assert NodesOf(d', line + [x]) == NodesOf(d, line) + [d'.jobs[x].node];
  }

  lemma BeginFollows(g: Graph, b: Bag, d: G.Dag, t: Task, line: seq<Task>)
    requires GI.Inv(g, b, d) && G.Enabled(g, d, G.Begin(t))
    ensures
      KahnOf(g, G.Do(g, d, G.Begin(t)), Some(t), line) == KahnNext(g, KahnOf(g, d, None, [t] + line))
  {
    assert NodesOf(d, [t] + line) == [d.jobs[t].node] + NodesOf(d, line);
    assert NodesOf(G.Do(g, d, G.Begin(t)), line) == NodesOf(d, line);
  }

  lemma FinishFollows(g: Graph, b: Bag, d: G.Dag, t: Task, line: seq<Task>)
    requires GI.Inv(g, b, d) && G.Enabled(g, d, G.Finish(t))
    ensures KahnOf(g, G.Do(g, d, G.Finish(t)), None, line) == KahnNext(g, KahnOf(g, d, Some(t), line))
  {
    assert GI.JobOk(g, d, t);
    assert NodesOf(G.Do(g, d, G.Finish(t)), line) == NodesOf(d, line);
  }

  lemma ReturnFollows(g: Graph, d: G.Dag, hand: Option<Task>, line: seq<Task>)
    requires G.Enabled(g, d, G.ReturnFromRun)
    ensures KahnOf(g, G.Do(g, d, G.ReturnFromRun), hand, line) == KahnOf(g, d, hand, line)
  {
  }

  // ---------------------------------------------------------------- seeding puts the sources on the list

  /** During the walk the line holds the sources passed, in order. */
  ghost predicate SeedingOnTrack(g: Graph, d: G.Dag, hand: Option<Task>, line: seq<Task>) {
    d.driver.Seeding? && hand == None && |d.deps| == |g| && NodesOf(d, line) == Sources(g, d.driver.i)
    && forall v | 0 <= v < |g| :: d.deps[v] == InDegree(g, v)
  }

  lemma SeedFollows(g: Graph, b: Bag, d: G.Dag, x: Task, line: seq<Task>)
    requires GI.Inv(g, b, d) && G.Enabled(g, d, G.Seed(x)) && AllQueued(d, line) && SeedingOnTrack(g, d, None, line)
    ensures SeedingOnTrack(g, G.Do(g, d, G.Seed(x)), None, line + [x])
  {
    assert NodesOf(G.Do(g, d, G.Seed(x)), line + [x]) == NodesOf(d, line) + [d.driver.i];
  }

  lemma SkipFollows(g: Graph, d: G.Dag, line: seq<Task>)
    requires G.Enabled(g, d, G.Skip) && SeedingOnTrack(g, d, None, line)
    ensures SeedingOnTrack(g, G.Do(g, d, G.Skip), None, line)
  {
    assert NodesOf(G.Do(g, d, G.Skip), line) == NodesOf(d, line);
  }

  lemma LaunchFollows(g: Graph, b: Bag, d: G.Dag, line: seq<Task>)
    requires GI.Inv(g, b, d) && G.Enabled(g, d, G.LaunchRun) && SeedingOnTrack(g, d, None, line)
    ensures KahnOf(g, G.Do(g, d, G.LaunchRun), None, line) == KahnAfter(g, 0)
  {
    assert NodesOf(G.Do(g, d, G.LaunchRun), line) == NodesOf(d, line);
    assert d.driver.i == |g|;
    assert d.deps == KahnStart(g).deps;
  }

  // ---------------------------------------------------------------- graph and ring on track

  ghost function Now(g: Graph, r: R.Rs, d: G.Dag): Kahn
    requires One(r)
  {
    KahnOf(g, d, Hand(r), Line(r))
  }

  /**
   * Seeding builds the list the algorithm starts with; later the execution is at some step of the algorithm, and
   * unless the ring is jammed the list has always fitted.
   */
  ghost predicate OnTrack(g: Graph, size: nat, r: R.Rs, d: G.Dag) {
    && One(r)
    && if d.driver.Seeding? then SeedingOnTrack(g, d, Hand(r), Line(r))
       else exists j: nat :: Now(g, r, d) == KahnAfter(g, j) && (P.Jammed(r) || FitsUntil(g, size, j))
  }

  lemma OneMeans(g: Graph, size: nat, r: R.Rs, d: G.Dag)
    requires InStep(g, size, 1, r, d)
    ensures One(r) && RI.Inv(r) && GI.Inv(g, r.bag, d) && AllQueued(d, Line(r))
    ensures |Line(r)| == |r.bag.queued| && |r.ring.slots| == size
  {
    E.ReachableIsEarly(size, 1, r);
    GT.ReachableHasInv(g, r.bag, d);
    LineIsQueued(r);
    forall i | 0 <= i < |Line(r)|
      ensures Line(r)[i] in d.jobs && d.jobs[Line(r)[i]].stage.Queued?
    {
      assert Line(r)[i] in Line(r);
    }
  }

  /** A step the graph and the ring make together follows the algorithm, or changes nothing it sees. */
  lemma TogetherFollows(g: Graph, r: R.Rs, d: G.Dag, s: R.RsStep, step: G.DagStep)
    requires One(r) && RI.Inv(r) && GI.Inv(g, r.bag, d) && AllQueued(d, Line(r)) && !d.driver.Seeding?
    requires R.Enabled(r, s) && G.Enabled(g, d, step) && R.LabelOf(r, s) == G.LabelOf(step) != Tau
    ensures One(R.Do(r, s))
    ensures
      var now, now' := Now(g, r, d), Now(g, R.Do(r, s), G.Do(g, d, step));
      now' == now || now' == KahnNext(g, now)
  {
    LineMoves(r, s);
    match step
    case Hand(t, x) => HandFollows(g, r.bag, d, t, x, Line(r));
    case Begin(t) => BeginFollows(g, r.bag, d, t, Line(R.Do(r, s)));
    case Finish(t) => FinishFollows(g, r.bag, d, t, Line(r));
    case ReturnFromRun => ReturnFollows(g, d, Hand(r), Line(r));
    case _ =>
  }

  lemma AloneFollows(g: Graph, r: R.Rs, d: G.Dag, step: G.DagStep)
    requires One(r) && GI.Inv(g, r.bag, d) && AllQueued(d, Line(r)) && !d.driver.Seeding?
    requires G.Enabled(g, d, step) && G.LabelOf(step) == Tau && RingThreadFree(r, step)
    ensures
      var now, now' := Now(g, r, d), Now(g, r, G.Do(g, d, step));
      now' == now || now' == KahnNext(g, now)
  {
    OwnStepFollows(g, r.bag, d, step, TaskOf(step).value, Line(r));
  }

  lemma MoveFollows(g: Graph, size: nat, r: R.Rs, d: G.Dag, m: Move<R.RsStep>, r': R.Rs, d': G.Dag)
    requires InStep(g, size, 1, r, d) && RingNext(g, r, d, m, r', d') && !d.driver.Seeding?
    ensures One(r) && One(r') && (Now(g, r', d') == Now(g, r, d) || Now(g, r', d') == KahnNext(g, Now(g, r, d)))
  {
    OneMeans(g, size, r, d);
    match m
    case SchedulerAlone(s) => LineMoves(r, s);
    case GraphAlone(step) => AloneFollows(g, r, d, step);
    case Together(s, step) => TogetherFollows(g, r, d, s, step);
  }

  /** One more task than fits into the ring is in line only when the worker is submitting it: that is a jam. */
  lemma FirstTooMany(g: Graph, size: nat, r: R.Rs, d: G.Dag, m: Move<R.RsStep>, r': R.Rs, d': G.Dag)
    requires InStep(g, size, 1, r, d) && RingNext(g, r, d, m, r', d') && InStep(g, size, 1, r', d')
    requires !d.driver.Seeding? && |r.bag.queued| <= size < |r'.bag.queued|
    ensures P.Jammed(r')
  {
    BuildingMeansSeeding(size, 1, r, g, d);
    P.SizeStays(size, 1, r);
    P.SizeStays(size, 1, r');
    assert !m.GraphAlone?;
    OnlySubmitAdds(r.bag, R.LabelOf(r, m.s));
    OnlySubmissionAdds(r, m.s);
    BusyMeansWaiting(size, r');
  }

  lemma OnlySubmitAdds(b: Bag, l: Label)
    requires |After(b, l).queued| > |b.queued|
    ensures l.Submit? && |After(b, l).queued| == |b.queued| + 1
  {
  }

  lemma OnlySubmissionAdds(r: R.Rs, s: R.RsStep)
    requires R.Launched(r) && |r.workers| == 1 && R.Enabled(r, s) && R.LabelOf(r, s).Submit?
    ensures R.Do(r, s).main == r.main && |R.Do(r, s).workers| == 1 && R.Do(r, s).workers[0].Submitting?
  {
  }

  lemma BusyMeansWaiting(size: nat, r: R.Rs)
    requires RT.Reachable(size, 1, r) && R.Launched(r) && r.bag.queued != {}
    ensures r.main.Waiting?
  {
    E.ReachableIsEarly(size, 1, r);
  }

  lemma JamStays(size: nat, r: R.Rs, g: Graph, d: G.Dag, m: Move<R.RsStep>, r': R.Rs, d': G.Dag)
    requires InStep(g, size, 1, r, d) && RingNext(g, r, d, m, r', d') && P.Jammed(r)
    ensures P.Jammed(r')
  {
    if !m.GraphAlone? {
      P.StepInJam(size, 1, r, m.s);
    }
  }

  lemma ReadyIsQueued(g: Graph, size: nat, r: R.Rs, d: G.Dag)
    requires InStep(g, size, 1, r, d)
    ensures One(r) && |Now(g, r, d).ready| == |r.bag.queued|
  {
    OneMeans(g, size, r, d);
  }

  /** The algorithm goes on by at most a step, and the new list fits unless there is a jam now. */
  lemma TrackGoesOn(g: Graph, size: nat, now: Kahn, j: nat, now': Kahn, jam: bool)
    requires now == KahnAfter(g, j) && (now' == now || now' == KahnNext(g, now))
    requires !jam ==> FitsUntil(g, size, j) && |now'.ready| <= size
    ensures exists j': nat :: now' == KahnAfter(g, j') && (jam || FitsUntil(g, size, j'))
  {
    var j' := if now' == now then j else j + 1;
    assert now' == KahnAfter(g, j');
    if !jam {
      forall i: nat | i <= j'
        ensures |KahnAfter(g, i).ready| <= size
      {
        assert i <= j || i == j';
      }
      assert FitsUntil(g, size, j');
    }
  }

  lemma RunningStaysOnTrack(g: Graph, size: nat, r: R.Rs, d: G.Dag, m: Move<R.RsStep>, r': R.Rs, d': G.Dag)
    requires InStep(g, size, 1, r, d) && RingNext(g, r, d, m, r', d') && InStep(g, size, 1, r', d')
    requires OnTrack(g, size, r, d) && !d.driver.Seeding?
    ensures OnTrack(g, size, r', d')
  {
    var j: nat :| Now(g, r, d) == KahnAfter(g, j) && (P.Jammed(r) || FitsUntil(g, size, j));
    MoveFollows(g, size, r, d, m, r', d');
    ReadyIsQueued(g, size, r, d);
    ReadyIsQueued(g, size, r', d');
    if P.Jammed(r) {
      JamStays(size, r, g, d, m, r', d');
    } else if |r'.bag.queued| > size {
      assert |KahnAfter(g, j).ready| <= size;
      FirstTooMany(g, size, r, d, m, r', d');
    }
    TrackGoesOn(g, size, Now(g, r, d), j, Now(g, r', d'), P.Jammed(r'));
    NeverSeedsAgain(g, d, m, d');
  }

  lemma NeverSeedsAgain(g: Graph, d: G.Dag, m: Move<R.RsStep>, d': G.Dag)
    requires !d.driver.Seeding? && if m.SchedulerAlone? then d' == d else G.Enabled(g, d, m.d) && d' == G.Do(g, d, m.d)
    ensures !d'.driver.Seeding?
  {
  }

  lemma SeedStaysOnTrack(g: Graph, r: R.Rs, d: G.Dag, s: R.RsStep, x: Task)
    requires One(r) && RI.Inv(r) && GI.Inv(g, r.bag, d) && AllQueued(d, Line(r))
    requires R.Enabled(r, s) && G.Enabled(g, d, G.Seed(x)) && R.LabelOf(r, s) == Submit(None, x)
    requires SeedingOnTrack(g, d, Hand(r), Line(r))
    ensures
      One(R.Do(r, s)) && SeedingOnTrack(g, G.Do(g, d, G.Seed(x)), Hand(R.Do(r, s)), Line(R.Do(r, s)))
  {
    LineMoves(r, s);
    SeedFollows(g, r.bag, d, x, Line(r));
  }

  lemma LaunchStaysOnTrack(g: Graph, r: R.Rs, d: G.Dag, s: R.RsStep)
    requires One(r) && RI.Inv(r) && GI.Inv(g, r.bag, d)
    requires R.Enabled(r, s) && G.Enabled(g, d, G.LaunchRun) && R.LabelOf(r, s) == Launch
    requires SeedingOnTrack(g, d, Hand(r), Line(r))
    ensures One(R.Do(r, s)) && Now(g, R.Do(r, s), G.Do(g, d, G.LaunchRun)) == KahnAfter(g, 0)
    ensures s.CallRun? && R.Do(r, s).bag.queued == r.bag.queued
  {
    LineMoves(r, s);
    LaunchFollows(g, r.bag, d, Line(r));
  }

  /** During the walk the graph takes no step but the walk's. */
  lemma GraphOnlyWalks(g: Graph, b: Bag, d: G.Dag, step: G.DagStep)
    requires GI.Inv(g, b, d) && G.Enabled(g, d, step) && d.driver.Seeding?
    ensures step.Skip? || step.Seed? || step.LaunchRun? || step.Begin?
  {
    assert forall t | t in d.jobs :: d.jobs[t].stage.Queued?;
  }

  lemma NothingStartsEarly(r: R.Rs, s: R.RsStep)
    requires R.Enabled(r, s) && !R.Launched(r)
    ensures !R.LabelOf(r, s).Start?
  {
  }

  lemma OnlyTheWalk(g: Graph, size: nat, r: R.Rs, d: G.Dag, m: Move<R.RsStep>, r': R.Rs, d': G.Dag)
    requires InStep(g, size, 1, r, d) && RingNext(g, r, d, m, r', d') && d.driver.Seeding? && !m.SchedulerAlone?
    ensures if m.GraphAlone? then m.d.Skip? else m.d.Seed? || m.d.LaunchRun?
  {
    GT.ReachableHasInv(g, r.bag, d);
    GraphOnlyWalks(g, r.bag, d, m.d);
    if m.Together? {
      BuildingMeansSeeding(size, 1, r, g, d);
      NothingStartsEarly(r, m.s);
    }
  }

  lemma SeedingStaysOnTrack(g: Graph, size: nat, r: R.Rs, d: G.Dag, m: Move<R.RsStep>, r': R.Rs, d': G.Dag)
    requires InStep(g, size, 1, r, d) && RingNext(g, r, d, m, r', d') && InStep(g, size, 1, r', d')
    requires OnTrack(g, size, r, d) && d.driver.Seeding?
    ensures OnTrack(g, size, r', d')
  {
    OneMeans(g, size, r, d);
    if !m.SchedulerAlone? {
      OnlyTheWalk(g, size, r, d, m, r', d');
    }
    if m.SchedulerAlone? {
      LineMoves(r, m.s);
    } else if m.GraphAlone? {
      SkipFollows(g, d, Line(r));
    } else if m.d.Seed? {
      SeedStaysOnTrack(g, r, d, m.s, m.d.t);
    } else {
      LaunchStaysOnTrack(g, r, d, m.s);
      StartFits(g, size, r, r', d');
    }
  }

  lemma StartFits(g: Graph, size: nat, r: R.Rs, r': R.Rs, d': G.Dag)
    requires RT.Reachable(size, 1, r) && R.Enabled(r, R.CallRun) && r'.bag.queued == r.bag.queued
    requires InStep(g, size, 1, r', d') && One(r') && Now(g, r', d') == KahnAfter(g, 0)
    ensures FitsUntil(g, size, 0)
  {
    E.EarlySubmissionsFit(size, 1, r);
    ReadyIsQueued(g, size, r', d');
  }

  lemma {:induction false} RunStaysOnTrack(g: Graph, size: nat, r: R.Rs, d: G.Dag, moves: seq<Move<R.RsStep>>, r': R.Rs,
                                           d': G.Dag)
    requires InStep(g, size, 1, r, d) && OnTrack(g, size, r, d) && RingReaches(g, r, d, moves, r', d')
    ensures InStep(g, size, 1, r', d') && OnTrack(g, size, r', d')
    decreases |moves|
  {
    if moves != [] {
      var r1, d1 :| RingNext(g, r, d, moves[0], r1, d1) && RingReaches(g, r1, d1, moves[1..], r', d');
      MoveKeepsStep(g, size, 1, r, d, moves[0], r1, d1);
      if d.driver.Seeding? {
        SeedingStaysOnTrack(g, size, r, d, moves[0], r1, d1);
      } else {
        RunningStaysOnTrack(g, size, r, d, moves[0], r1, d1);
      }
      RunStaysOnTrack(g, size, r1, d1, moves[1..], r', d');
    }
  }

  /** Every execution with one worker is on track. */
  lemma ExecutionIsOnTrack(g: Graph, size: nat, r: R.Rs, d: G.Dag)
    requires RingReachable(g, size, 1, r, d)
    ensures InStep(g, size, 1, r, d) && OnTrack(g, size, r, d)
  {
    var moves :| RingReaches(g, R.Init(size, 1), G.Built(g), moves, r, d);
    StartsInStep(g, size, 1);
    assert Line(R.Init(size, 1)) == [];
    assert NodesOf(G.Built(g), []) == [];
    RunStaysOnTrack(g, size, R.Init(size, 1), G.Built(g), moves, r, d);
  }

  // ---------------------------------------------------------------- exactly when `run` can return

  lemma AtReturnNothingIsLeft(g: Graph, size: nat, r: R.Rs, d: G.Dag)
    requires InStep(g, size, 1, r, d) && r.main.Returned?
    ensures One(r) && Now(g, r, d).place.Between? && Now(g, r, d).ready == [] && !d.driver.Seeding?
  {
    NothingInHandAtReturn(size, r);
    ReadyIsQueued(g, size, r, d);
    BuildingMeansSeeding(size, 1, r, g, d);
  }

  lemma NothingInHandAtReturn(size: nat, r: R.Rs)
    requires RT.Reachable(size, 1, r) && r.main.Returned?
    ensures |r.workers| == 1 && Hand(r) == None && r.bag.queued == {}
  {
    E.ReachableIsEarly(size, 1, r);
  }

  lemma ReturnMeansFits(g: Graph, size: nat, r: R.Rs, d: G.Dag)
    requires RingReachable(g, size, 1, r, d) && r.main.Returned?
    ensures AlwaysFits(g, size)
  {
    ExecutionIsOnTrack(g, size, r, d);
    AtReturnNothingIsLeft(g, size, r, d);
    var j: nat :| Now(g, r, d) == KahnAfter(g, j) && (P.Jammed(r) || FitsUntil(g, size, j));
    forall i: nat
      ensures |KahnAfter(g, i).ready| <= size
    {
      if i > j {
        KahnStops(g, j, i);
      }
    }
  }

  lemma JamMeansTooLong(g: Graph, size: nat, r: R.Rs, d: G.Dag)
    requires RingReachable(g, size, 1, r, d) && P.Jammed(r)
    ensures !AlwaysFits(g, size)
  {
    ExecutionIsOnTrack(g, size, r, d);
    OneMeans(g, size, r, d);
    BuildingMeansSeeding(size, 1, r, g, d);
    var j: nat :| Now(g, r, d) == KahnAfter(g, j);
    assert |KahnAfter(g, j).ready| == |Line(r)|;
  }

  lemma FitsMeansSourcesFit(g: Graph, size: nat)
    requires AlwaysFits(g, size)
    ensures SourcesFit(g, size)
  {
    assert KahnAfter(g, 0) == KahnStart(g);
    SourcesLength(g, |g|);
  }

  /**
   * With one worker, from whatever state an execution has reached, `run` can return if and only if Kahn's algorithm
   * never has more nodes on its list than the ring has slots.
   */
  lemma OneWorkerReturnsExactly(g: Graph, size: nat, r: R.Rs, d: G.Dag)
    requires RingReachable(g, size, 1, r, d)
    ensures (exists r', d' :: RingLeads(g, r, d, r', d') && r'.main.Returned?) <==> AlwaysFits(g, size)
  {
    if r', d' :| RingLeads(g, r, d, r', d') && r'.main.Returned? {
      U.LeadsOn(g, R.Init(size, 1), G.Built(g), r, d, r', d');
      ReturnMeansFits(g, size, r', d');
    }
    if AlwaysFits(g, size) {
      FitsMeansSourcesFit(g, size);
      var r', d' := U.ExecuteCanReturnOrJam(g, size, 1, r, d);
      U.LeadsOn(g, R.Init(size, 1), G.Built(g), r, d, r', d');
      if P.Jammed(r') {
        JamMeansTooLong(g, size, r', d');
      }
    }
  }
}
