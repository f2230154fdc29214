/**
 * When the ring scheduler can go on during `run`.  It is jammed when every worker is inside a submission and the ring
 * is full: nobody is left to consume.  From any other reachable state the threads can go on, without any step
 * their client would see, until a queued task starts, a running task may move, or `run` may return.
 */
module RingProgress {
  import opened Wrappers
  import opened BagScheduler
  import opened Multisets
  import opened RingScheduler
  import opened RingSchedulerCalls
  import opened RingSchedulerInvariant
  import opened RingSchedulerSteps
  import opened RingSchedulerTheorems
  import E = RingEarly
  import I = RingInvariant
  import Q = RingTheorems
  import R = RingModel
  import RS = RingSteps

  /** Every worker is inside a submission, and has one task more than fits into the ring. */
  ghost predicate Jammed(s: Rs) {
    && s.main.Waiting? && |s.bag.queued| == |s.ring.slots| + |s.workers|
    && forall w | 0 <= w < |s.workers| :: s.workers[w].Submitting?
  }

  // ---------------------------------------------------------------- runs the client does not see

  ghost predicate Quietly(s: Rs, s': Rs) {
    exists steps :: E.QuietRun(s, steps, s')
  }

  lemma NoStep(s: Rs)
    ensures Quietly(s, s)
  {
    assert E.QuietRun(s, [], s);
  }

  lemma OneStepFirst(s: Rs, step: RsStep, s': Rs)
    requires Enabled(s, step) && LabelOf(s, step) == Tau && Quietly(Do(s, step), s')
    ensures Quietly(s, s')
  {
    var steps :| E.QuietRun(Do(s, step), steps, s');
    assert ([step] + steps)[1..] == steps;
    assert E.QuietRun(s, [step] + steps, s');
  }

  lemma {:induction false} QuietRunThen(s: Rs, steps: seq<RsStep>, m: Rs, s': Rs)
    requires E.QuietRun(s, steps, m) && Quietly(m, s')
    ensures Quietly(s, s')
    decreases |steps|
  {
    if steps != [] {
      QuietRunThen(Do(s, steps[0]), steps[1..], m, s');
      OneStepFirst(s, steps[0], s');
    }
  }

  lemma QuietlyThen(s: Rs, m: Rs, s': Rs)
    requires Quietly(s, m) && Quietly(m, s')
    ensures Quietly(s, s')
  {
    var steps :| E.QuietRun(s, steps, m);
    QuietRunThen(s, steps, m, s');
  }

  /** A quiet run leads from one reachable state to another, and the bag stays as it is. */
  lemma {:induction false} QuietRunGoesOn(size: nat, n: nat, s: Rs, steps: seq<RsStep>, s': Rs)
    requires Reachable(size, n, s) && E.QuietRun(s, steps, s')
    ensures Reachable(size, n, s') && s'.bag == s.bag
    decreases |steps|
  {
    if steps != [] {
      ReachableGoesOn(size, n, s, steps[0]);
      QuietRunGoesOn(size, n, Do(s, steps[0]), steps[1..], s');
    }
  }

  // ---------------------------------------------------------------- who is where

  ghost predicate NoClaims(r: R.Ring) {
    forall c | 0 <= c < |r.consumers| :: !I.Claiming(r.consumers[c])
  }

  /** The ticket a submission has, or would get now. */
  function TicketOf(r: R.Ring, pc: R.ProducerPc): nat {
    if pc.PIdle? then r.head else pc.pos
  }

  /** The submission of `w` has, or would get, a ticket that the ring has a slot for. */
  ghost predicate Fits(s: Rs, w: nat) {
    && w < |s.workers| && w < |s.ring.producers| && s.workers[w].Submitting?
    && TicketOf(s.ring, s.ring.producers[w]) < s.ring.tail + |s.ring.slots|
  }

  /** The facts about a reachable state during `run` that progress rests on. */
  lemma DuringRun(size: nat, n: nat, s: Rs)
    requires Reachable(size, n, s) && s.main.Waiting?
    ensures Inv(s) && |s.ring.slots| == size && |s.workers| == n && !s.shutdown
    ensures s.ring.producers[n].PIdle? && MainUnticketed(s) == multiset{}
    ensures forall w | 0 <= w < n :: Worker(s, w) && CallOk(s, w) && !s.workers[w].Exited?
  {
    E.ReachableIsEarly(size, n, s);
  }

  lemma SizeStays(size: nat, n: nat, s: Rs)
    requires Reachable(size, n, s)
    ensures |s.ring.slots| == size && |s.workers| == n == |s.ring.consumers| && |s.ring.producers| == n + 1
  {
    E.ReachableIsEarly(size, n, s);
  }

  /** During `run` a producer at work works for a worker's submission. */
  lemma ProducesForWorker(size: nat, n: nat, s: Rs, i: nat)
    requires Reachable(size, n, s) && s.main.Waiting? && i < |s.ring.producers| && !s.ring.producers[i].PIdle?
    ensures i < n == |s.workers| && s.workers[i].Submitting?
  {
    E.ReachableIsEarly(size, n, s);
    ProducerMatches(s, i);
  }

  lemma ProducerMatches(s: Rs, i: nat)
    requires Sizes(s) && CallsMatch(s) && s.main.Waiting? && i < |s.ring.producers| && !s.ring.producers[i].PIdle?
    ensures i < |s.workers| && s.workers[i].Submitting?
  {
    if i < |s.workers| {
      assert CallOk(s, i);
    }
  }

  /** With no claim pending, each slot serves a ticket yet to be claimed. */
  lemma TurnsAreAhead(r: R.Ring)
    requires I.Inv(r) && NoClaims(r)
    ensures |r.turn| == |r.slots| && forall j | 0 <= j < |r.turn| :: r.tail <= r.turn[j]
  {
    E.AllReleasedMeansEarly(r);
  }

  // ---------------------------------------------------------------- a claimed task can start

  lemma {:induction false} ClaimCanStart(size: nat, n: nat, s: Rs, c: nat) returns (s': Rs, m: RsStep)
    requires Reachable(size, n, s) && s.main.Waiting? && c < |s.ring.consumers| && I.Claiming(s.ring.consumers[c])
    ensures Quietly(s, s') && Reachable(size, n, s') && s'.bag == s.bag
    ensures Enabled(s', m) && LabelOf(s', m).Start?
    decreases s.ring.consumers[c].Won?
  {
    DuringRun(size, n, s);
    assert CallOk(s, c) && I.ConsumerOk(s.ring, s.ring.consumers[c]);
    var pc := s.ring.consumers[c];
    var step := ConsumerStep(c, NextConsumerStep(pc, c, false));
    if pc.Took? {
      s', m := s, step;
      NoStep(s);
    } else {
      ReachableGoesOn(size, n, s, step);
      s', m := ClaimCanStart(size, n, Do(s, step), c);
      OneStepFirst(s, step, s');
    }
  }

  // ---------------------------------------------------------------- a submission that fits can finish

  function ProducerPhase(pc: R.ProducerPc): nat {
    match pc
    case PIdle => 4
    case Reserved(_, _) => 3
    case Ready(_, _) => 2
    case Written(_, _) => 1
  }

  function SubmitMove(s: Rs, w: nat): RsStep
    requires w < |s.workers| && w < |s.ring.producers| && s.workers[w].Submitting?
  {
    ProducerStep(w, NextProducerStep(s.ring.producers[w], w, s.workers[w].x))
  }

  /** Worker `w` has a submission under way that the ring has a slot for, and nobody has claimed a task. */
  ghost predicate SubmitsAlone(s: Rs, w: nat) {
    I.Inv(s.ring) && Sizes(s) && Launched(s) && NoClaims(s.ring) && Fits(s, w) && CallOk(s, w)
  }

  /** What the next step of such a submission does. */
  lemma SubmitMoveDoes(s: Rs, w: nat)
    requires SubmitsAlone(s, w)
    ensures
      var m := SubmitMove(s, w);
      && Enabled(s, m) && LabelOf(s, m) == Tau
      && var s' := Do(s, m);
         && s'.main == s.main && s'.bag == s.bag && NoClaims(s'.ring)
         && w < |s'.workers| && w < |s'.ring.producers|
         && (m.st.Publish? ==> s'.workers[w] == Running(s.workers[w].t))
         && (!m.st.Publish? ==>
               && s'.workers[w] == s.workers[w] && Fits(s', w)
               && ProducerPhase(s'.ring.producers[w]) < ProducerPhase(s.ring.producers[w]))
  {
    if s.ring.producers[w].Reserved? {
      assert I.ProducerOk(s.ring, s.ring.producers[w]);
      TurnsAreAhead(s.ring);
      E.NextTurnSlot(s.ring, s.ring.producers[w]);
    }
  }

  lemma {:induction false} SubmissionCanFinish(size: nat, n: nat, s: Rs, w: nat) returns (s': Rs)
    requires Reachable(size, n, s) && s.main.Waiting? && NoClaims(s.ring) && Fits(s, w)
    ensures Quietly(s, s') && Reachable(size, n, s') && s'.bag == s.bag && s'.main == s.main
    ensures Worker(s', w) && s'.workers[w] == Running(s.workers[w].t)
    decreases ProducerPhase(s.ring.producers[w])
  {
    var m := SubmitMove(s, w);
    DuringRun(size, n, s);
    assert CallOk(s, w);
    SubmitMoveDoes(s, w);
    ReachableGoesOn(size, n, s, m);
    var s1 := Do(s, m);
    if m.st.Publish? {
      s' := s1;
      DuringRun(size, n, s1);
      NoStep(s1);
    } else {
      s' := SubmissionCanFinish(size, n, s1, w);
    }
    OneStepFirst(s, m, s');
  }

  // ---------------------------------------------------------------- a worker outside its tasks goes round its loop

  /** Worker `v` is looking for a task, or on its way to do so or to leave. */
  predicate Looking(pc: WorkerPc) {
    pc.AtTop? || pc.Dequeuing? || pc.CheckShutdown?
  }

  function LookMove(s: Rs, v: nat): RsStep
    requires v < |s.workers| && v < |s.ring.consumers|
  {
    match s.workers[v]
    case AtTop => StartDequeue(v)
    case Dequeuing =>
      if s.ring.consumers[v].CIdle? then LoadShutdown(v)
      else ConsumerStep(v, NextConsumerStep(s.ring.consumers[v], v, false))
    case _ => LoadShutdown(v)
  }

  /** How far a looking worker is from a claim, or from leaving. */
  function LookPhase(s: Rs, v: nat, leaving: bool): nat
    requires v < |s.workers| && v < |s.ring.consumers|
  {
    match s.workers[v]
    case AtTop => 4
    case CheckShutdown => if leaving then 1 else 5
    case Dequeuing =>
      (match s.ring.consumers[v]
       case GotTail(pos) => if pos == s.ring.tail then 2 else 4
       case SawFilled(pos) => if pos == s.ring.tail then 1 else 3
       case _ => 3)
    case _ => 0
  }

  /** Worker `v` is looking for a task, and nobody has claimed one. */
  ghost predicate LooksAlone(s: Rs, v: nat) {
    && I.Inv(s.ring) && Sizes(s) && Launched(s) && NoClaims(s.ring)
    && v < |s.workers| && CallOk(s, v) && Looking(s.workers[v])
  }

  /** What the next step of a looking worker does while no claim is pending. */
  lemma LookMoveDoes(s: Rs, v: nat)
    requires LooksAlone(s, v)
    ensures
      var m := LookMove(s, v);
      && Enabled(s, m) && LabelOf(s, m) == Tau
      && var s' := Do(s, m);
         && s'.main == s.main && s'.shutdown == s.shutdown && s'.bag == s.bag
         && s'.ring.slots == s.ring.slots && s'.ring.turn == s.ring.turn
         && |s'.workers| == |s.workers| == |s'.ring.consumers|
         && (forall u | 0 <= u < |s.workers| && u != v ::
               s'.workers[u] == s.workers[u] && s'.ring.consumers[u] == s.ring.consumers[u])
         && (s'.ring.consumers[v].Won? || (s'.ring.tail == s.ring.tail && NoClaims(s'.ring)))
  {
    assert I.ConsumerOk(s.ring, s.ring.consumers[v]) && !I.Claiming(s.ring.consumers[v]);
  }

  /** It brings the worker closer to a claim if the first ticket is filled, and to leaving if it is to leave. */
  lemma LookMoveNears(s: Rs, v: nat)
    requires LooksAlone(s, v) && Enabled(s, LookMove(s, v))
    requires |s.ring.turn| == |s.ring.slots| > 0 && s.shutdown == !I.Filled(s.ring, s.ring.tail)
    ensures v < |Do(s, LookMove(s, v)).workers| && v < |Do(s, LookMove(s, v)).ring.consumers|
    ensures Nearer(s, Do(s, LookMove(s, v)), v)
  {
    assert I.ConsumerOk(s.ring, s.ring.consumers[v]) && !I.Claiming(s.ring.consumers[v]);
    if s.ring.consumers[v].GotTail? {
      Q.SignOfDiff(s.ring, v);
      NotFilledBehind(s.ring, s.ring.consumers[v].pos);
      ReadingNears(s, v);
    }
  }

  ghost predicate Nearer(s: Rs, s': Rs, v: nat)
    requires v < |s.workers| && v < |s.ring.consumers| && v < |s'.workers| && v < |s'.ring.consumers|
  {
    if s.shutdown then
      !s'.ring.consumers[v].Won? && (s'.workers[v].Exited? || CloserBy(s, s', v))
    else
      !s'.workers[v].Exited? && (s'.ring.consumers[v].Won? || CloserBy(s, s', v))
  }

  predicate CloserBy(s: Rs, s': Rs, v: nat)
    requires v < |s.workers| && v < |s.ring.consumers| && v < |s'.workers| && v < |s'.ring.consumers|
  {
    Looking(s'.workers[v]) && LookPhase(s', v, s.shutdown) < LookPhase(s, v, s.shutdown)
  }

  lemma ReadingNears(s: Rs, v: nat)
    requires v < |s.workers| && v < |s.ring.consumers| && s.workers[v].Dequeuing? && s.ring.consumers[v].GotTail?
    requires Enabled(s, ConsumerStep(v, R.LoadSequence(v)))
    requires |s.ring.turn| == |s.ring.slots| > 0
    requires
      var pos := s.ring.consumers[v].pos;
      if R.Diff(s.ring, pos) < 0 then pos == s.ring.tail && s.shutdown
      else if R.Diff(s.ring, pos) == 0 then pos == s.ring.tail && !s.shutdown
      else pos != s.ring.tail
    ensures
      var s' := Do(s, ConsumerStep(v, R.LoadSequence(v)));
      v < |s'.workers| && v < |s'.ring.consumers| && Nearer(s, s', v)
  {
  }

  /** With no claim pending, a ticket below the tail has been released. */
  lemma NotFilledBehind(r: R.Ring, p: nat)
    requires I.Inv(r) && NoClaims(r)
    ensures p < r.tail ==> !I.Filled(r, p)
  {
    TurnsAreAhead(r);
  }

  /** If the first ticket is filled, a looking worker can claim it and start its task. */
  lemma {:induction false} LookerCanStart(size: nat, n: nat, s: Rs, v: nat) returns (s': Rs, m: RsStep)
    requires Reachable(size, n, s) && s.main.Waiting? && NoClaims(s.ring) && v < n
    requires v < |s.workers| && v < |s.ring.consumers| && Looking(s.workers[v])
    requires |s.ring.turn| == |s.ring.slots| > 0 && I.Filled(s.ring, s.ring.tail)
    ensures Quietly(s, s') && Reachable(size, n, s') && s'.bag == s.bag
    ensures Enabled(s', m) && LabelOf(s', m).Start?
    decreases LookPhase(s, v, false)
  {
    DuringRun(size, n, s);
    assert CallOk(s, v);
    LookMoveDoes(s, v);
    LookMoveNears(s, v);
    var first := LookMove(s, v);
    var s1 := Do(s, first);
    ReachableGoesOn(size, n, s, first);
    if s1.ring.consumers[v].Won? {
      s', m := ClaimCanStart(size, n, s1, v);
    } else {
      s', m := LookerCanStart(size, n, s1, v);
    }
    OneStepFirst(s, first, s');
  }

  // ---------------------------------------------------------------- the first ticket is filled

  /** Nobody runs a task, claims one, or submits one the ring has a slot for. */
  ghost predicate NobodyBusy(s: Rs) {
    && NoClaims(s.ring)
    && forall w | 0 <= w < |s.workers| :: !s.workers[w].Running? && !Fits(s, w)
  }

  lemma SomeTicketIsOpen(size: nat, n: nat, s: Rs)
    requires Reachable(size, n, s) && s.main.Waiting? && NobodyBusy(s) && !Quiescent(s)
    ensures s.ring.tail < s.ring.head
  {
    DuringRun(size, n, s);
    if w :| 0 <= w < n && s.workers[w].Submitting? {
      assert !Fits(s, w) && I.ProducerOk(s.ring, s.ring.producers[w]);
    } else {
      NobodySubmitsMeansQueuedInRing(s);
    }
  }

  lemma NobodySubmitsMeansQueuedInRing(s: Rs)
    requires Inv(s) && NoClaims(s.ring) && MainUnticketed(s) == multiset{} && !Quiescent(s)
    requires forall w | 0 <= w < |s.workers| :: !s.workers[w].Running? && !s.workers[w].Submitting?
    ensures s.ring.tail < s.ring.head
  {
    SumOfEmpty(Waits(s));
    SumOfEmpty(Hands(s));
    NoClaimsMeansNone(s.ring);
    if Unclaimed(s.ring) == [] {
      assert multiset(s.bag.queued) == multiset{} && multiset(s.bag.running) == multiset{};
      SetOfNone(s.bag.queued);
      SetOfNone(s.bag.running);
    }
  }

  lemma SetOfNone(q: set<Task>)
    requires multiset(q) == multiset{}
    ensures q == {}
  {
    assert |q| == |multiset(q)|;
  }

  lemma NoClaimsMeansNone(r: R.Ring)
    requires NoClaims(r)
    ensures Sum(Claims(r)) == multiset{}
  {
    forall c | 0 <= c < |Claims(r)|
      ensures Claims(r)[c] == multiset{}
    {
      assert !I.Claiming(r.consumers[c]);
    }
    SumOfEmpty(Claims(r));
  }

  /** Whoever works on the first ticket is a worker, and there is a slot for it. */
  lemma FirstTicketFits(size: nat, n: nat, s: Rs, i: nat)
    requires Reachable(size, n, s) && s.main.Waiting? && i < |s.ring.producers|
    requires I.Writes(s.ring.producers[i], s.ring.tail)
    ensures i < |s.workers| && Fits(s, i)
  {
    ProducesForWorker(size, n, s, i);
    SizeStays(size, n, s);
    RingIsNotEmpty(size, n, s);
  }

  lemma RingIsNotEmpty(size: nat, n: nat, s: Rs)
    requires Reachable(size, n, s)
    ensures |s.ring.slots| > 0 && I.Inv(s.ring)
  {
    E.ReachableIsEarly(size, n, s);
  }

  /** Then, if there is work, the first ticket waits in its slot. */
  lemma FirstIsFilled(size: nat, n: nat, s: Rs)
    requires Reachable(size, n, s) && s.main.Waiting? && NobodyBusy(s) && !Quiescent(s)
    ensures |s.ring.turn| == |s.ring.slots| > 0 && I.Filled(s.ring, s.ring.tail)
  {
    DuringRun(size, n, s);
    SomeTicketIsOpen(size, n, s);
    var r := s.ring;
    assert I.Accounted(r, r.tail);
    if I.Released(r, r.tail) {
      RS.ReleasedIsClaimed(r, r.tail);
    }
    if I.Produced(r.producers, r.tail) {
      var i :| 0 <= i < |r.producers| && I.Writes(r.producers[i], r.tail);
      FirstTicketFits(size, n, s, i);
    }
  }

  // ---------------------------------------------------------------- `run` can return once all is done

  lemma QuiescentMeansEmpty(size: nat, n: nat, s: Rs)
    requires Reachable(size, n, s) && Launched(s) && Quiescent(s) && !s.main.Returned?
    ensures Inv(s) && |s.workers| == n == |s.ring.consumers| && NoClaims(s.ring)
    ensures |s.ring.turn| == |s.ring.slots| > 0 && !I.Filled(s.ring, s.ring.tail)
    ensures forall w | 0 <= w < n :: Worker(s, w) && (Looking(s.workers[w]) || s.workers[w].Exited?)
  {
    E.ReachableIsEarly(size, n, s);
    forall w | 0 <= w < n
      ensures !I.Claiming(s.ring.consumers[w]) && (Looking(s.workers[w]) || s.workers[w].Exited?)
    {
      NothingClaimedAtRest(s, w);
    }
    if I.Filled(s.ring, s.ring.tail) {
      FilledIsQueued(s);
    }
  }

  lemma NothingClaimedAtRest(s: Rs, w: nat)
    requires Inv(s) && Quiescent(s) && w < |s.workers|
    ensures !I.Claiming(s.ring.consumers[w]) && !s.workers[w].Running? && !s.workers[w].Submitting?
  {
    if I.Claiming(s.ring.consumers[w]) {
      assert I.ConsumerOk(s.ring, s.ring.consumers[w]);
      var t := s.ring.tickets[s.ring.consumers[w].pos];
      SummandIsPart(Claims(s.ring), w);
      assert t in Claims(s.ring)[w];
      OwedIsQueued(s, t);
    }
    if s.workers[w].Running? || s.workers[w].Submitting? {
      InHandIsRunning(s, w);
    }
  }

  lemma FilledIsQueued(s: Rs)
    requires Inv(s) && s.ring.slots != [] && |s.ring.turn| == |s.ring.slots| && I.Filled(s.ring, s.ring.tail)
    ensures s.bag.queued != {}
  {
    assert I.SlotOk(s.ring, R.Home(s.ring, s.ring.tail));
    assert Unclaimed(s.ring)[0] in multiset(Unclaimed(s.ring));
    OwedIsQueued(s, Unclaimed(s.ring)[0]);
  }

  /** A worker that has nothing left to look for can leave, wherever it is. */
  lemma {:induction false} WorkerCanLeave(size: nat, n: nat, s: Rs, v: nat) returns (s': Rs)
    requires Reachable(size, n, s) && s.main.Joining? && s.shutdown && Quiescent(s) && v < n
    requires v < |s.workers| && v < |s.ring.consumers|
    ensures Quietly(s, s') && Reachable(size, n, s') && s'.bag == s.bag && s'.main.Joining? && s'.shutdown
    ensures |s'.workers| == |s.workers| && s'.workers[v].Exited?
    ensures forall u | 0 <= u < |s.workers| && s.workers[u].Exited? :: s'.workers[u].Exited?
    decreases LookPhase(s, v, true)
  {
    QuiescentMeansEmpty(size, n, s);
    if s.workers[v].Exited? {
      s' := s;
      NoStep(s);
    } else {
      assert CallOk(s, v);
      LookMoveDoes(s, v);
      LookMoveNears(s, v);
      var m := LookMove(s, v);
      var s1 := Do(s, m);
      ReachableGoesOn(size, n, s, m);
      if s1.workers[v].Exited? {
        s' := s1;
        NoStep(s1);
      } else {
        s' := WorkerCanLeave(size, n, s1, v);
      }
      OneStepFirst(s, m, s');
    }
  }

  lemma {:induction false} WorkersCanLeave(size: nat, n: nat, s: Rs, v: nat) returns (s': Rs)
    requires Reachable(size, n, s) && s.main.Joining? && s.shutdown && Quiescent(s) && v <= n == |s.workers|
    requires forall u | 0 <= u < v :: s.workers[u].Exited?
    ensures Quietly(s, s') && Reachable(size, n, s') && s'.bag == s.bag && Enabled(s', JoinAll)
    decreases n - v
  {
    if v == n {
      s' := s;
      NoStep(s);
    } else {
      SizeStays(size, n, s);
      var s1 := WorkerCanLeave(size, n, s, v);
      s' := WorkersCanLeave(size, n, s1, v + 1);
      QuietlyThen(s, s1, s');
    }
  }

  /** Once all work is done, `run` can get to the point where it returns. */
  lemma DoneCanReturn(size: nat, n: nat, s: Rs) returns (s': Rs)
    requires Reachable(size, n, s) && Quiescent(s) && (s.main.Waiting? || s.main.Stopping? || s.main.Joining?)
    requires s.main.Joining? ==> s.shutdown
    ensures Quietly(s, s') && Reachable(size, n, s') && s'.bag == s.bag && Enabled(s', JoinAll)
    decreases if s.main.Waiting? then 2 else if s.main.Stopping? then 1 else 0
  {
    E.ReachableIsEarly(size, n, s);
    if s.main.Joining? {
      s' := WorkersCanLeave(size, n, s, 0);
    } else {
      var m := if s.main.Waiting? then SeePendingZero else StoreShutdown;
      ReachableGoesOn(size, n, s, m);
      s' := DoneCanReturn(size, n, Do(s, m));
      OneStepFirst(s, m, s');
    }
  }

  // ---------------------------------------------------------------- jammed: no slot for anybody's ticket

  /** Every worker is inside a submission that the ring has no slot for. */
  ghost predicate AllBeyond(s: Rs) {
    forall w | 0 <= w < |s.workers| :: s.workers[w].Submitting? && !Fits(s, w)
  }

  /** The tickets the first `k` producers are working on. */
  function Positions(producers: seq<R.ProducerPc>, k: nat): set<nat>
    requires k <= |producers|
  {
    set w | 0 <= w < k && !producers[w].PIdle? :: producers[w].pos
  }

  lemma OnePositionMore(producers: seq<R.ProducerPc>, k: nat)
    requires k < |producers| && I.OneProducer(producers)
    ensures
      |Positions(producers, k + 1)| == |Positions(producers, k)| + if producers[k].PIdle? then 0 else 1
  {
    var before, after := Positions(producers, k), Positions(producers, k + 1);
    if producers[k].PIdle? {
      assert after == before;
    } else {
      assert after == before + {producers[k].pos};
      assert producers[k].pos !in before;
    }
  }

  /** How many of the first `k` producers are idle. */
  function Idle(producers: seq<R.ProducerPc>, k: nat): nat
    requires k <= |producers|
  {
    if k == 0 then 0 else Idle(producers, k - 1) + if producers[k - 1].PIdle? then 1 else 0
  }

  /** Each producer is idle or at work on its own ticket. */
  lemma {:induction false} IdleOrAtWork(producers: seq<R.ProducerPc>, k: nat)
    requires k <= |producers| && I.OneProducer(producers)
    ensures Idle(producers, k) + |Positions(producers, k)| == k
    decreases k
  {
    if k == 0 {
      assert Positions(producers, 0) == {};
    } else {
      IdleOrAtWork(producers, k - 1);
      OnePositionMore(producers, k - 1);
    }
  }

  /** A submission whose producer is idle waits for its ticket. */
  lemma {:induction false} IdleMeansWaiting(s: Rs, k: nat)
    requires Sizes(s) && k <= |s.workers| && forall w | 0 <= w < k :: s.workers[w].Submitting?
    ensures SizeBelow(Waits(s), k) == Idle(s.ring.producers, k)
    decreases k
  {
    if k > 0 {
      IdleMeansWaiting(s, k - 1);
      SubmitterWaits(s, k - 1);
    }
  }

  lemma SubmitterWaits(s: Rs, w: nat)
    requires Sizes(s) && w < |s.workers| && s.workers[w].Submitting?
    ensures |Waits(s)[w]| == if s.ring.producers[w].PIdle? then 1 else 0
  {
  }

  /** With everybody submitting, the queued tasks are those in the ring and those still without a ticket. */
  lemma QueuedBySubmitters(size: nat, n: nat, s: Rs)
    requires Reachable(size, n, s) && s.main.Waiting? && forall w | 0 <= w < |s.workers| :: s.workers[w].Submitting?
    ensures |s.workers| == n < |s.ring.producers| && s.ring.tail <= s.ring.head && NoClaims(s.ring)
    ensures |s.bag.queued| == s.ring.head - s.ring.tail + n - |Positions(s.ring.producers, n)|
  {
    DuringRun(size, n, s);
    SubmittersClaimNothing(s);
    IdleMeansWaiting(s, n);
    IdleOrAtWork(s.ring.producers, n);
    SizeOfSum(Waits(s));
    QueuedPlaces(s);
  }

  lemma SubmittersClaimNothing(s: Rs)
    requires Sizes(s) && CallsMatch(s) && forall w | 0 <= w < |s.workers| :: s.workers[w].Submitting?
    ensures NoClaims(s.ring)
  {
    forall c | 0 <= c < |s.ring.consumers|
      ensures !I.Claiming(s.ring.consumers[c])
    {
      assert CallOk(s, c);
    }
  }

  lemma QueuedPlaces(s: Rs)
    requires I.Sizes(s.ring) && Sizes(s) && TasksOk(s) && NoClaims(s.ring) && MainUnticketed(s) == multiset{}
    ensures |s.bag.queued| == s.ring.head - s.ring.tail + |Sum(Waits(s))|
  {
    NoClaimsMeansNone(s.ring);
    assert |multiset(s.bag.queued)| == |multiset(Unclaimed(s.ring))| + |Sum(Waits(s))|;
  }

  /** The tickets that the ring has no slot for. */
  function Beyond(r: R.Ring): set<nat> {
    if r.tail + |r.slots| <= r.head then Range(r.tail + |r.slots|, r.head) else {}
  }

  /** The numbers from `a` up to, but not including, `b`. */
  function Range(a: nat, b: nat): (s: set<nat>)
    requires a <= b
    ensures |s| == b - a && forall p :: p in s <==> a <= p < b
    decreases b - a
  {
    if a == b then {} else Range(a, b - 1) + {b - 1}
  }

  lemma SmallerSet(a: set<nat>, b: set<nat>)
    requires a <= b
    ensures |a| <= |b| && (|a| == |b| ==> a == b)
  {
    assert b == a + (b - a);
  }

  /** A ticket without a slot is one that a producer is working on. */
  lemma BeyondIsProduced(r: R.Ring, p: nat) returns (i: nat)
    requires I.Inv(r) && r.tail + |r.slots| <= p < r.head
    ensures i < |r.producers| && I.Writes(r.producers[i], p)
  {
    assert I.Accounted(r, p) && I.SlotOk(r, R.Home(r, p));
    if I.Released(r, p) {
      RS.ReleasedIsClaimed(r, p);
    }
    i :| 0 <= i < |r.producers| && I.Writes(r.producers[i], p);
  }

  lemma BeyondIsOpen(size: nat, n: nat, s: Rs)
    requires Reachable(size, n, s) && s.main.Waiting? && n < |s.ring.producers|
    ensures Beyond(s.ring) <= Positions(s.ring.producers, n)
  {
    RingIsNotEmpty(size, n, s);
    forall p | p in Beyond(s.ring)
      ensures p in Positions(s.ring.producers, n)
    {
      var i := BeyondIsProduced(s.ring, p);
      ProducesForWorker(size, n, s, i);
    }
  }

  /** If all submissions are beyond the ring, so is its head, and their tickets are all there is beyond. */
  lemma AllBeyondMeans(size: nat, n: nat, s: Rs)
    requires Reachable(size, n, s) && s.main.Waiting? && n >= 1 && AllBeyond(s) && n < |s.ring.producers|
    ensures s.ring.tail + |s.ring.slots| <= s.ring.head
    ensures Positions(s.ring.producers, n) <= Beyond(s.ring)
  {
    DuringRun(size, n, s);
    forall w | 0 <= w < n
      ensures s.ring.tail + |s.ring.slots| <= TicketOf(s.ring, s.ring.producers[w]) <= s.ring.head
      ensures !s.ring.producers[w].PIdle? ==> s.ring.producers[w].pos in Beyond(s.ring)
    {
      assert !Fits(s, w) && I.ProducerOk(s.ring, s.ring.producers[w]);
    }
  }

  /** If some submission is not, its ticket is not beyond the ring. */
  lemma SomeFitsMeans(s: Rs, w: nat)
    requires Fits(s, w) && w < |s.workers| < |s.ring.producers| && s.ring.tail + |s.ring.slots| <= s.ring.head
    ensures Positions(s.ring.producers, |s.workers|) != Beyond(s.ring)
  {
    assert s.ring.producers[w].pos in Positions(s.ring.producers, |s.workers|);
  }

  /** Submitters beyond the ring are as many as the tickets there. */
  lemma CountBeyond(size: nat, n: nat, s: Rs)
    requires Reachable(size, n, s) && s.main.Waiting? && n >= 1
    requires forall w | 0 <= w < |s.workers| :: s.workers[w].Submitting?
    ensures |s.bag.queued| <= size + n
    ensures AllBeyond(s) <==> |s.bag.queued| == size + n
  {
    QueuedBySubmitters(size, n, s);
    SizeStays(size, n, s);
    BeyondIsOpen(size, n, s);
    var far, mine := Beyond(s.ring), Positions(s.ring.producers, n);
    SmallerSet(far, mine);
    if s.ring.tail + size <= s.ring.head {
      assert |far| == s.ring.head - (s.ring.tail + size);
    }
    if AllBeyond(s) {
      AllBeyondMeans(size, n, s);
      assert mine == far;
    } else if s.ring.tail + size <= s.ring.head {
      var w :| 0 <= w < n && Fits(s, w);
      SomeFitsMeans(s, w);
    }
  }

  /** Jammed, in the client's terms, is: no worker has or would get a ticket that the ring has a slot for. */
  lemma JammedMeansBeyond(size: nat, n: nat, s: Rs)
    requires Reachable(size, n, s) && s.main.Waiting? && n >= 1
    ensures Jammed(s) <==> AllBeyond(s)
  {
    SizeStays(size, n, s);
    if forall w | 0 <= w < |s.workers| :: s.workers[w].Submitting? {
      CountBeyond(size, n, s);
    }
  }

  // ---------------------------------------------------------------- jammed once, jammed for good

  /** A task is written only to a slot that the ring has for it. */
  lemma WrittenFits(r: R.Ring, i: nat)
    requires I.Inv(r) && i < |r.producers| && r.producers[i].Written?
    ensures r.producers[i].pos < r.tail + |r.slots|
  {
    assert I.ProducerOk(r, r.producers[i]) && I.SlotOk(r, R.Home(r, r.producers[i].pos));
  }

  /** While all workers submit and tasks are pending, only submissions go on, and `run` polls in vain. */
  lemma OnlySubmissions(s: Rs, step: RsStep)
    requires s.main.Waiting? && s.pending > 0 && Enabled(s, step)
    requires forall w | 0 <= w < |s.workers| :: s.workers[w].Submitting?
    ensures step.ProducerStep? || step.SeeTasksPending?
  {
  }

  lemma SubmissionStep(s: Rs, step: RsStep)
    requires Jammed(s) && Enabled(s, step) && step.ProducerStep? && !step.st.Publish?
    ensures Jammed(Do(s, step)) && Do(s, step).bag == s.bag
  {
  }

  lemma PendingInJam(size: nat, n: nat, s: Rs)
    requires Reachable(size, n, s) && Jammed(s) && n >= 1
    ensures s.pending > 0 && I.Inv(s.ring)
  {
    E.ReachableIsEarly(size, n, s);
  }

  /** In a jam nothing but the next ticket and vain looks at slots can happen. */
  lemma StepInJam(size: nat, n: nat, s: Rs, step: RsStep)
    requires Reachable(size, n, s) && Jammed(s) && n >= 1 && Enabled(s, step)
    ensures Jammed(Do(s, step)) && Do(s, step).bag == s.bag
  {
    PendingInJam(size, n, s);
    JammedMeansBeyond(size, n, s);
    OnlySubmissions(s, step);
    if step.ProducerStep? {
      assert !Fits(s, step.w);
      if s.ring.producers[step.w].Written? {
        WrittenFits(s.ring, step.w);
      }
      SubmissionStep(s, step);
    }
  }

  /** Once the ring is jammed, no continuation starts or finishes a task, or makes `run` return. */
  lemma {:induction false} JammedForGood(size: nat, n: nat, s: Rs, steps: seq<RsStep>, s': Rs)
    requires Reachable(size, n, s) && Jammed(s) && n >= 1 && Reaches(s, steps, s')
    ensures Jammed(s') && s'.bag == s.bag
    decreases |steps|
  {
    if steps != [] {
      StepInJam(size, n, s, steps[0]);
      ReachableGoesOn(size, n, s, steps[0]);
      JammedForGood(size, n, Do(s, steps[0]), steps[1..], s');
    }
  }

  // ---------------------------------------------------------------- never stuck otherwise

  /** Something the client sees can happen now, or a running task may move. */
  ghost predicate MayMove(s: Rs) {
    || (exists m :: Enabled(s, m) && LabelOf(s, m).Start?)
    || (exists w: nat :: Worker(s, w) && s.workers[w].Running?)
    || Enabled(s, JoinAll)
  }

  /** Unless the ring is jammed, the threads can go on by themselves until something the client sees can happen. */
  lemma CanGoOn(size: nat, n: nat, s: Rs) returns (s': Rs)
    requires Reachable(size, n, s) && s.main.Waiting? && n >= 1 && !Jammed(s)
    ensures Quietly(s, s') && Reachable(size, n, s') && s'.bag == s.bag && MayMove(s')
  {
    DuringRun(size, n, s);
    if c :| 0 <= c < |s.ring.consumers| && I.Claiming(s.ring.consumers[c]) {
      var m;
      s', m := ClaimCanStart(size, n, s, c);
    } else if w :| 0 <= w < n && Fits(s, w) {
      s' := SubmissionCanFinish(size, n, s, w);
    } else if w :| 0 <= w < n && s.workers[w].Running? {
      s' := s;
      NoStep(s);
    } else if Quiescent(s) {
      s' := DoneCanReturn(size, n, s);
    } else {
      JammedMeansBeyond(size, n, s);
      FirstIsFilled(size, n, s);
      var v :| 0 <= v < n && !s.workers[v].Submitting?;
      assert CallOk(s, v) && !s.workers[v].Exited?;
      var m;
      s', m := LookerCanStart(size, n, s, v);
    }
  }

  lemma {:induction false} QuietRunReaches(s: Rs, steps: seq<RsStep>, s': Rs)
    requires E.QuietRun(s, steps, s')
    ensures Reaches(s, steps, s')
    decreases |steps|
  {
    if steps != [] {
      QuietRunReaches(Do(s, steps[0]), steps[1..], s');
    }
  }

  /** A start, a finish or a return changes the bag. */
  lemma LabelIsSeen(b: Bag, l: Label)
    requires Allows(b, l) && (l.Start? || l.Finish? || l.Return?) && b.queued !! b.running
    ensures After(b, l) != b
  {
    if l.Start? {
      assert l.t in After(b, l).running;
    } else if l.Finish? {
      assert l.t !in After(b, l).running;
    }
  }

  lemma BagsAreApart(size: nat, n: nat, s: Rs)
    requires Reachable(size, n, s)
    ensures s.bag.queued !! s.bag.running
  {
    E.ReachableIsEarly(size, n, s);
  }

  /** What may move changes the bag when it does. */
  lemma MoveIsSeen(size: nat, n: nat, s: Rs) returns (m: RsStep)
    requires Reachable(size, n, s) && MayMove(s)
    ensures Enabled(s, m) && Do(s, m).bag != s.bag
  {
    if m1 :| Enabled(s, m1) && LabelOf(s, m1).Start? {
      m := m1;
    } else if w: nat :| Worker(s, w) && s.workers[w].Running? {
      m := FinishTask(w);
    } else {
      m := JoinAll;
    }
    ReachableGoesOn(size, n, s, m);
    BagsAreApart(size, n, s);
    LabelIsSeen(s.bag, LabelOf(s, m));
  }

  /** Nothing the client sees can happen any more. */
  ghost predicate Standstill(s: Rs) {
    forall steps, s' | Reaches(s, steps, s') :: s'.bag == s.bag
  }

  lemma NotJammedMeansNoStandstill(size: nat, n: nat, s: Rs)
    requires Reachable(size, n, s) && s.main.Waiting? && n >= 1 && !Jammed(s)
    ensures !Standstill(s)
  {
    var s1 := CanGoOn(size, n, s);
    var m := MoveIsSeen(size, n, s1);
    var steps :| E.QuietRun(s, steps, s1);
    QuietRunReaches(s, steps, s1);
    RunGoesOn(s, steps, s1, m);
  }

  /** During `run` the scheduler has come to a standstill exactly when the ring is jammed. */
  lemma StandstillMeansJammed(size: nat, n: nat, s: Rs)
    requires Reachable(size, n, s) && s.main.Waiting? && n >= 1
    ensures Standstill(s) <==> Jammed(s)
  {
    if Jammed(s) {
      forall steps, s' | Reaches(s, steps, s')
        ensures s'.bag == s.bag
      {
        JammedForGood(size, n, s, steps, s');
      }
    } else {
      NotJammedMeansNoStandstill(size, n, s);
    }
  }
}
