/**
 * The work-stealing scheduler is never stuck: from every reachable state the threads can go on, without
 * any step its client would see, until a queued task starts, a submission is over, or `run` may return.
 */
module WorkStealingProgress {
  import opened Wrappers
  import opened BagScheduler
  import opened Multisets
  import opened WorkStealingCalls
  import opened WorkStealingModel
  import opened WorkStealingInvariant
  import opened WorkStealingSteps
  import opened WorkStealingTheorems
  import D = DequeModel
  import I = DequeInvariant
  import R = DequeRefinement

  // ---------------------------------------------------------------- runs the client does not see

  ghost predicate QuietRun(s: Ws, steps: seq<WsStep>, s': Ws)
    decreases |steps|
  {
    if steps == [] then s == s'
    else Enabled(s, steps[0]) && LabelOf(s, steps[0]) == Tau && QuietRun(Do(s, steps[0]), steps[1..], s')
  }

  ghost predicate Quietly(s: Ws, s': Ws) {
    exists steps :: QuietRun(s, steps, s')
  }

  lemma NoStep(s: Ws)
    ensures Quietly(s, s)
  {
    assert QuietRun(s, [], s);
  }

  lemma OneStepFirst(s: Ws, step: WsStep, s': Ws)
    requires Enabled(s, step) && LabelOf(s, step) == Tau && Quietly(Do(s, step), s')
    ensures Quietly(s, s')
  {
    var steps :| QuietRun(Do(s, step), steps, s');
    assert ([step] + steps)[1..] == steps;
    assert QuietRun(s, [step] + steps, s');
  }

  lemma {:induction false} QuietRunThen(s: Ws, steps: seq<WsStep>, m: Ws, s': Ws)
    requires QuietRun(s, steps, m) && Quietly(m, s')
    ensures Quietly(s, s')
    decreases |steps|
  {
    if steps != [] {
      QuietRunThen(Do(s, steps[0]), steps[1..], m, s');
      OneStepFirst(s, steps[0], s');
    }
  }

  lemma QuietlyThen(s: Ws, m: Ws, s': Ws)
    requires Quietly(s, m) && Quietly(m, s')
    ensures Quietly(s, s')
  {
    var steps :| QuietRun(s, steps, m);
    QuietRunThen(s, steps, m, s');
  }

  // ---------------------------------------------------------------- the next move of one worker

  /** Only worker `v` has moved. */
  ghost predicate OnlyWorker(s: Ws, s': Ws, v: nat) {
    && s'.main == s.main && s'.shutdown == s.shutdown && s'.inject == s.inject && s'.pending == s.pending
    && |s'.deques| == |s.deques| && |s'.workers| == |s.workers|
    && forall u | 0 <= u < |s.workers| && u != v :: s'.workers[u] == s.workers[u]
  }

  /** What worker `v` does next, outside its tasks. */
  function NextMove(s: Ws, v: nat): WsStep
    requires v < |s.workers| == |s.deques|
  {
    match s.workers[v]
    case AtTop => OwnerStep(v, D.PopLoadBot)
    case CheckPending => LoadPending(v)
    case CheckShutdown => LoadShutdown(v, 0)
    case Sweeping(_, a) => if a + 1 < |s.workers| then StartSteal(v) else GiveUpSweep(v)
    case Stealing(_, _) =>
      var u := VictimOf(s, v);
      if u < |s.deques| && v < |s.deques[u].thieves| && !s.deques[u].thieves[v].Out?
      then ThiefStep(v, NextThiefStep(s.deques[u].thieves[v], v)) else GiveUpSweep(v)
    case _ => if s.deques[v].owner.Idle? then GiveUpSweep(v) else OwnerMove(s, v)
  }

  /** How far a steal in progress still has to go. */
  function StealPhase(s: Ws, v: nat): nat
    requires v < |s.workers|
  {
    if !s.workers[v].Stealing? then 0
    else
      var u := VictimOf(s, v);
      if u < |s.deques| && v < |s.deques[u].thieves| then ThiefPhase(s.deques[u].thieves[v]) else 0
  }

  function AttemptsLeft(pc: WorkerPc, n: nat): nat {
    match pc
    case Sweeping(_, a) => if a < n then 2 * (n - a) else 0
    case Stealing(_, a) => if a < n then 2 * (n - a) - 1 else 1
    case _ => 0
  }

  /** Along the loop, either towards a pop that finds a task or towards the exit. */
  function Stage(pc: WorkerPc, leaving: bool): nat {
    match pc
    case Sweeping(_, _) => if leaving then 4 else 2
    case Stealing(_, _) => if leaving then 4 else 2
    case AtTop => if leaving then 3 else 1
    case Popping => if leaving then 2 else 0
    case CheckPending => if leaving then 1 else 4
    case CheckShutdown => if leaving then 1 else 3
    case Exited => 0
    case _ => 5
  }

  /** Worker `v` has come closer to its goal. */
  predicate Closer(s: Ws, s': Ws, v: nat, leaving: bool)
    requires v < |s.workers| == |s.deques| == |s'.workers| == |s'.deques|
  {
    var n, pc, pc', d, d' := |s.workers|, s.workers[v], s'.workers[v], s.deques[v], s'.deques[v];
    || Stage(pc', leaving) < Stage(pc, leaving)
    || (Stage(pc', leaving) == Stage(pc, leaving) && AttemptsLeft(pc', n) < AttemptsLeft(pc, n))
    || (pc' == pc && pc.Stealing? && StealPhase(s', v) < StealPhase(s, v))
    || (pc' == pc && pc.Popping? && OwnerCloser(d, d'))
    || (pc' == pc && pc.Submitting? && OwnerCloser(d, d'))
  }

  // ---------------------------------------------------------------- what the next move does

  /** An owner step, or the drain it waits for. */
  lemma OwnerMoveDoes(s: Ws, v: nat)
    requires Worker(s, v) && !s.deques[v].owner.Idle? && (s.workers[v].Popping? || s.workers[v].Submitting?)
    ensures
      var m := OwnerMove(s, v);
      && Enabled(s, m)
      && var s' := Do(s, m);
         && OnlyWorker(s, s', v)
         && s'.deques == s.deques[v := D.Do(s.deques[v], NextOwnerStep(s.deques[v]))]
         && (LabelOf(s, m) == Tau || LabelOf(s, m).Start?)
         && (s'.deques[v].owner.Idle? || (s'.workers[v] == s.workers[v] && OwnerCloser(s.deques[v], s'.deques[v])))
         && (s'.deques[v].owner.Idle? ==>
               && m == OwnerStep(v, NextOwnerStep(s.deques[v]))
               && if s.workers[v].Submitting? then s'.workers[v] == Running(s.workers[v].t) && LabelOf(s, m) == Tau
                  else if LabelOf(s, m) == Tau then s'.workers[v] == CheckPending
                  else s'.workers[v] == Running(LabelOf(s, m).t))
         && (!s'.deques[v].owner.Idle? ==> LabelOf(s, m) == Tau)
  {
    OwnerStepAdvances(s.deques[v]);
  }

  /** All that is asked of a quiet move of worker `v` from a place outside its deque. */
  ghost predicate QuietMove(s: Ws, v: nat, m: WsStep, pc': WorkerPc)
    requires v < |s.workers|
  {
    && Enabled(s, m) && LabelOf(s, m) == Tau && OnlyWorker(s, Do(s, m), v) && Do(s, m).workers == s.workers[v := pc']
  }

  lemma AtTopMove(n: nat, s: Ws, v: nat)
    requires Reachable(n, s) && Worker(s, v) && s.workers[v].AtTop?
    ensures QuietMove(s, v, NextMove(s, v), Popping)
    ensures Do(s, NextMove(s, v)).deques == s.deques[v := D.Do(s.deques[v], D.PopLoadBot)]
  {
    BetweenCalls(n, s, v);
  }

  lemma CheckMove(s: Ws, v: nat)
    requires Worker(s, v) && (s.workers[v].CheckPending? || s.workers[v].CheckShutdown?)
    ensures
      var m := NextMove(s, v);
      && Enabled(s, m) && Do(s, m).deques == s.deques
      && QuietMove(s, v, m, Do(s, m).workers[v])
      && var pc' := Do(s, m).workers[v];
         if s.workers[v].CheckPending? then pc' == if s.pending == 0 then Exited else CheckShutdown
         else if s.shutdown then pc'.Exited? else pc'.Sweeping? || pc'.AtTop?
  {
  }

  lemma SweepMove(n: nat, s: Ws, v: nat)
    requires Reachable(n, s) && Worker(s, v) && s.workers[v].Sweeping?
    ensures
      var m := NextMove(s, v);
      && Enabled(s, m) && |Do(s, m).workers| == |s.workers| && QuietMove(s, v, m, Do(s, m).workers[v])
      && var Sweeping(start, a), pc' := s.workers[v], Do(s, m).workers[v];
         && pc' == (if a + 1 < |s.workers| then Stealing(start, a) else AtTop)
         && (forall u | 0 <= u < |s.deques| && u != VictimOf(s, v) :: Do(s, m).deques[u] == s.deques[u])
         && VictimOf(s, v) != v
  {
    AimsAtOther(n, s, v);
  }

  lemma StealMove(n: nat, s: Ws, v: nat)
    requires Reachable(n, s) && Worker(s, v) && s.workers[v].Stealing?
    ensures
      var m := NextMove(s, v);
      && Enabled(s, m) && (LabelOf(s, m).Start? || LabelOf(s, m) == Tau)
      && var s' := Do(s, m);
         && OnlyWorker(s, s', v)
         && (forall u | 0 <= u < |s.deques| && u != VictimOf(s, v) :: s'.deques[u] == s.deques[u])
         && VictimOf(s, v) != v
         && (LabelOf(s, m) == Tau ==>
               || (s'.workers[v] == s.workers[v] && StealPhase(s', v) < StealPhase(s, v))
               || s'.workers[v] == Sweeping(s.workers[v].start, s.workers[v].attempt + 1))
  {
    StealsFromOther(n, s, v);
    var u := VictimOf(s, v);
    ThiefStepAdvances(s.deques[u], v, s.workers[v]);
  }

  // ---------------------------------------------------------------- towards the start of a queued task

  /** A pop that is about to return null leaves nothing behind; one that has claimed returns its task. */
  lemma FailedPopMeansEmpty(d: D.State)
    requires I.Inv(d)
    ensures d.owner.PopRestore? && d.owner.r.None? ==> Owed(d) == multiset{}
    ensures d.owner.PopTake? ==> PopResult(d, D.PopReadTaken).Some?
  {
  }

  /** A pop's step that starts nothing leaves its deque owing what it owed; if it ends the pop, that is nothing. */
  lemma PopOwes(n: nat, s: Ws, v: nat)
    requires Reachable(n, s) && Worker(s, v) && s.workers[v].Popping? && !s.deques[v].owner.Idle?
    requires Enabled(s, OwnerMove(s, v)) && LabelOf(s, OwnerMove(s, v)) == Tau
    requires v < |Do(s, OwnerMove(s, v)).deques|
    requires Do(s, OwnerMove(s, v)).deques[v] == D.Do(s.deques[v], NextOwnerStep(s.deques[v]))
    ensures
      var d' := Do(s, OwnerMove(s, v)).deques[v];
      Owed(d') == Owed(s.deques[v]) && (d'.owner.Idle? ==> Owed(d') == multiset{})
  {
    ReachableMeansInv(n, s);
    assert OwnerMatches(s, v);
    PopOwesOn(s.deques[v]);
  }

  lemma PopOwesOn(d: D.State)
    requires I.Inv(d) && !d.owner.Idle? && PcMatches(Popping, R.OwnerCall(d.owner))
    ensures
      var st := NextOwnerStep(d);
      && D.Enabled(d, st)
      && var d' := D.Do(d, st);
         !AfterOwnerStep(Popping, d, st, d').Running? ==>
           Owed(d') == Owed(d) && (d'.owner.Idle? ==> Owed(d') == multiset{})
  {
    OwnerStepAdvances(d);
    FailedPopMeansEmpty(d);
    PopEndsEmpty(d);
    if NextOwnerStep(d).Drain? {
      DrainOwesTheSame(d);
    } else {
      PopStepOwes(d, NextOwnerStep(d));
    }
  }

  lemma PopEndsEmpty(d: D.State)
    requires !d.owner.Idle? && PcMatches(Popping, R.OwnerCall(d.owner))
    requires d.owner.PopTake? ==> PopResult(d, D.PopReadTaken).Some?
    requires D.Enabled(d, NextOwnerStep(d))
    ensures
      var d' := D.Do(d, NextOwnerStep(d));
      d'.owner.Idle? && !AfterOwnerStep(Popping, d, NextOwnerStep(d), d').Running? ==>
        d.owner.PopRestore? && d.owner.r.None?
  {
  }

  lemma PopStepOwes(d: D.State, st: D.Step)
    requires I.Inv(d) && D.Enabled(d, st) && IsOwnerStep(st)
    requires PcMatches(Popping, R.OwnerCall(d.owner)) && !d.owner.Idle?
    ensures !AfterOwnerStep(Popping, d, st, D.Do(d, st)).Running? ==> Owed(D.Do(d, st)) == Owed(d)
  {
    WorkerOwnerEffect(d, st, Popping);
    NothingPushed(Owed(d), Owed(D.Do(d, st)), AfterOwnerStep(Popping, d, st, D.Do(d, st)));
  }

  lemma NothingPushed(o: multiset<Task>, o': multiset<Task>, pc': WorkerPc)
    ensures !pc'.Submitting? && o' + BeingPushed(pc') == o + BeingPushed(Popping) ==> o' == o
  {
    if !pc'.Submitting? && o' + BeingPushed(pc') == o + BeingPushed(Popping) {
      forall x
        ensures o'[x] == o[x]
      {
        assert (o' + BeingPushed(pc'))[x] == (o + BeingPushed(Popping))[x];
      }
    }
  }

  /** Work is waiting in the deque of `v`, and nothing runs. */
  ghost predicate WorkWaits(n: nat, s: Ws, v: nat) {
    && Reachable(n, s) && s.main.Waiting? && Worker(s, v) && s.bag.running == {}
    && Owed(s.deques[v]) != multiset{}
  }

  lemma NobodyIsDone(n: nat, s: Ws, v: nat)
    requires WorkWaits(n, s, v)
    ensures s.pending > 0 && !s.shutdown
    ensures !s.workers[v].Running? && !s.workers[v].Submitting? && !s.workers[v].Exited?
  {
    ReachableMeansInv(n, s);
    var t :| t in Owed(s.deques[v]);
    OwedIsQueued(s, v, t);
    if s.workers[v].Running? || s.workers[v].Submitting? {
      InHandIsRunning(s, v);
    }
  }

  /** The move starts a task, or brings `v` closer to doing so with the work still waiting. */
  ghost predicate NearsStart(s: Ws, v: nat, m: WsStep)
    requires v < |s.workers| == |s.deques|
  {
    && Enabled(s, m)
    && var s' := Do(s, m);
       || LabelOf(s, m).Start?
       || (LabelOf(s, m) == Tau && s'.main == s.main && |s'.workers| == |s'.deques| == |s.workers|
           && Owed(s'.deques[v]) == Owed(s.deques[v]) && Closer(s, s', v, false))
  }

  lemma PopNearsStart(n: nat, s: Ws, v: nat)
    requires WorkWaits(n, s, v) && s.workers[v].Popping?
    ensures NearsStart(s, v, NextMove(s, v))
  {
    BetweenCalls(n, s, v);
    OwnerMoveDoes(s, v);
    if LabelOf(s, NextMove(s, v)) == Tau {
      PopOwes(n, s, v);
    }
  }

  lemma AtTopNearsStart(n: nat, s: Ws, v: nat)
    requires WorkWaits(n, s, v) && s.workers[v].AtTop?
    ensures NearsStart(s, v, NextMove(s, v))
  {
    AtTopMove(n, s, v);
    BetweenCalls(n, s, v);
    StartOfPopOwes(n, s, v);
  }

  lemma SweepNearsStart(n: nat, s: Ws, v: nat)
    requires WorkWaits(n, s, v) && (s.workers[v].Sweeping? || s.workers[v].Stealing?)
    ensures NearsStart(s, v, NextMove(s, v))
  {
    if s.workers[v].Sweeping? {
      SweepMove(n, s, v);
    } else {
      StealMove(n, s, v);
    }
  }

  /** The next move of `v` starts a task, or brings it closer to doing so. */
  lemma TowardsStart(n: nat, s: Ws, v: nat)
    requires WorkWaits(n, s, v)
    ensures NearsStart(s, v, NextMove(s, v))
    ensures
      var m := NextMove(s, v);
      !LabelOf(s, m).Start? ==> WorkWaits(n, Do(s, m), v) && Do(s, m).bag == s.bag
  {
    NobodyIsDone(n, s, v);
    if s.workers[v].AtTop? {
      AtTopNearsStart(n, s, v);
    } else if s.workers[v].Popping? {
      PopNearsStart(n, s, v);
    } else if s.workers[v].Sweeping? || s.workers[v].Stealing? {
      SweepNearsStart(n, s, v);
    } else {
      CheckMove(s, v);
    }
    ReachableGoesOn(n, s, NextMove(s, v));
  }

  lemma StartOfPopOwes(n: nat, s: Ws, v: nat)
    requires Reachable(n, s) && Worker(s, v) && s.deques[v].owner.Idle?
    ensures Owed(D.Do(s.deques[v], D.PopLoadBot)) == Owed(s.deques[v])
  {
    ReachableMeansInv(n, s);
    OwedAfter(s.deques[v], D.PopLoadBot);
  }

  /** How far worker `v` is from its goal: its place in the loop, in its sweep, in its steal and in its own deque. */
  datatype Distance = Distance(stage: nat, attempts: nat, steal: nat, phase: nat, copies: nat, stores: nat)

  function DistanceOf(s: Ws, v: nat, leaving: bool): Distance
    requires v < |s.workers| == |s.deques|
  {
    var d := s.deques[v];
    Distance(Stage(s.workers[v], leaving), AttemptsLeft(s.workers[v], |s.workers|), StealPhase(s, v),
             OwnerPhase(d.owner), LeftToCopy(d.owner), |d.buf|)
  }

  predicate Less(a: Distance, b: Distance) {
    || a.stage < b.stage
    || (a.stage == b.stage && a.attempts < b.attempts)
    || (a.stage == b.stage && a.attempts == b.attempts && a.steal < b.steal)
    || (a.stage == b.stage && a.attempts == b.attempts && a.steal == b.steal && a.phase < b.phase)
    || (a.stage == b.stage && a.attempts == b.attempts && a.steal == b.steal && a.phase == b.phase
        && (a.copies < b.copies || (a.copies == b.copies && a.stores < b.stores)))
  }

  lemma CloserIsLess(s: Ws, s': Ws, v: nat, leaving: bool)
    requires v < |s.workers| == |s.deques| == |s'.workers| == |s'.deques| && Closer(s, s', v, leaving)
    ensures Less(DistanceOf(s', v, leaving), DistanceOf(s, v, leaving))
  {
  }

  /** Work that waits in a deque can be started, by the worker of that deque if by nobody else. */
  lemma {:induction false} WaitingWorkCanStart(n: nat, s: Ws, v: nat, far: Distance) returns (s': Ws, m: WsStep)
    requires WorkWaits(n, s, v) && far == DistanceOf(s, v, false)
    ensures Quietly(s, s') && Reachable(n, s') && s'.bag == s.bag
    ensures Enabled(s', m) && LabelOf(s', m).Start?
    decreases far.stage, far.attempts, far.steal, far.phase, far.copies, far.stores
  {
    var first := NextMove(s, v);
    TowardsStart(n, s, v);
    if LabelOf(s, first).Start? {
      s', m := s, first;
      NoStep(s);
    } else {
      CloserIsLess(s, Do(s, first), v, false);
      s', m := WaitingWorkCanStart(n, Do(s, first), v, DistanceOf(Do(s, first), v, false));
      OneStepFirst(s, first, s');
    }
  }

  /** If something is queued while nothing runs, it waits in some worker's deque. */
  lemma QueuedWaitsSomewhere(n: nat, s: Ws) returns (v: nat)
    requires Reachable(n, s) && s.main.Waiting? && s.bag.running == {} && s.bag.queued != {}
    ensures WorkWaits(n, s, v)
  {
    ReachableMeansInv(n, s);
    var t :| t in s.bag.queued;
    assert t in multiset(s.bag.queued);
    v := SummandOf(Loads(s), t);
    if s.workers[v].Submitting? {
      InHandIsRunning(s, v);
    }
  }

  /** Whenever something is queued and nothing runs, a task can start. */
  lemma QueuedCanStart(n: nat, s: Ws) returns (s': Ws, m: WsStep)
    requires Reachable(n, s) && s.main.Waiting? && s.bag.running == {} && s.bag.queued != {}
    ensures Quietly(s, s') && Reachable(n, s') && s'.bag == s.bag
    ensures Enabled(s', m) && LabelOf(s', m).Start?
  {
    var v := QueuedWaitsSomewhere(n, s);
    s', m := WaitingWorkCanStart(n, s, v, DistanceOf(s, v, false));
  }

  // ---------------------------------------------------------------- to the end of a submission

  /** A push in progress can be finished, and brings its worker back into its task. */
  lemma {:induction false} PushCanFinish(n: nat, s: Ws, v: nat) returns (s': Ws)
    requires Reachable(n, s) && Worker(s, v) && s.workers[v].Submitting?
    ensures Quietly(s, s') && Reachable(n, s') && s'.bag == s.bag
    ensures Worker(s', v) && s'.workers[v] == Running(s.workers[v].t)
    decreases if s.deques[v].owner.Idle? then 9 else OwnerPhase(s.deques[v].owner),
      LeftToCopy(s.deques[v].owner), |s.deques[v].buf|
  {
    var m := if s.deques[v].owner.Idle? then OwnerStep(v, D.PushLoadBot(s.workers[v].x)) else OwnerMove(s, v);
    if !s.deques[v].owner.Idle? {
      OwnerMoveDoes(s, v);
    }
    var s1 := Do(s, m);
    ReachableGoesOn(n, s, m);
    if s1.workers[v].Running? {
      s' := s1;
      NoStep(s1);
    } else {
      s' := PushCanFinish(n, s1, v);
    }
    OneStepFirst(s, m, s');
  }

  // ---------------------------------------------------------------- to the launch

  /** `run` can fill deque 0 from the injection queue. */
  lemma {:induction false} FillingCanFinish(n: nat, s: Ws) returns (s': Ws)
    requires Reachable(n, s) && s.main.Draining?
    ensures Quietly(s, s') && Reachable(n, s') && s'.bag == s.bag
    ensures s'.main.Draining? && s'.main.i >= |s'.inject|
    decreases |s.inject| - s.main.i,
      if s.deques == [] || s.deques[0].owner.Idle? then 9 else OwnerPhase(s.deques[0].owner),
      if s.deques == [] then 0 else LeftToCopy(s.deques[0].owner)
  {
    if s.main.i >= |s.inject| {
      s' := s;
      NoStep(s);
    } else {
      var m := FillMove(n, s);
      ReachableGoesOn(n, s, m);
      s' := FillingCanFinish(n, Do(s, m));
      OneStepFirst(s, m, s');
    }
  }

  lemma FillMove(n: nat, s: Ws) returns (m: WsStep)
    requires Reachable(n, s) && s.main.Draining? && s.main.i < |s.inject|
    ensures s.deques != [] && Enabled(s, m) && LabelOf(s, m) == Tau
    ensures
      var s', d := Do(s, m), s.deques[0];
      && s'.inject == s.inject && s'.main.Draining? && |s'.deques| == |s.deques|
      && var d' := s'.deques[0];
         || s'.main.i == s.main.i + 1
         || (s'.main.i == s.main.i && !d'.owner.Idle? && d.owner.Idle? && OwnerPhase(d'.owner) < 9)
         || (s'.main.i == s.main.i && !d'.owner.Idle? && !d.owner.Idle?
             && (OwnerPhase(d'.owner) < OwnerPhase(d.owner)
                 || (OwnerPhase(d'.owner) == OwnerPhase(d.owner) && LeftToCopy(d'.owner) < LeftToCopy(d.owner))))
  {
    ReachableMeansInv(n, s);
    assert OwnerMatches(s, 0);
    IdleIsNoCall(s.deques[0]);
    var d := s.deques[0];
    m := MainOwnerStep(if d.owner.Idle? then D.PushLoadBot(s.inject[s.main.i]) else NextOwnerStep(d));
    if !s.deques[0].owner.Idle? {
      PushAdvances(s.deques[0]);
    }
  }

  lemma PushAdvances(d: D.State)
    requires R.OwnerCall(d.owner).Pushing?
    ensures
      var st := NextOwnerStep(d);
      && D.Enabled(d, st) && IsOwnerStep(st)
      && var d' := D.Do(d, st);
         && (st.PushStoreBot? <==> d'.owner.Idle?)
         && (OwnerPhase(d'.owner) < OwnerPhase(d.owner)
             || (OwnerPhase(d'.owner) == OwnerPhase(d.owner) && LeftToCopy(d'.owner) < LeftToCopy(d.owner)))
  {
    OwnerStepAdvances(d);
  }

  // ---------------------------------------------------------------- draining the store buffers

  /** With no owner in the way all store buffers can drain; nothing else changes. */
  lemma {:induction false} BuffersCanDrain(n: nat, s: Ws, v: nat) returns (s': Ws)
    requires Reachable(n, s) && v <= |s.deques| && forall u | 0 <= u < v :: s.deques[u].buf == []
    ensures Quietly(s, s') && Reachable(n, s') && s'.bag == s.bag
    ensures s'.main == s.main && s'.inject == s.inject && s'.workers == s.workers
    ensures forall u | 0 <= u < |s'.deques| :: s'.deques[u].buf == []
    decreases |s.deques| - v, if v < |s.deques| then |s.deques[v].buf| else 0
  {
    if v == |s.deques| {
      s' := s;
      NoStep(s);
    } else if s.deques[v].buf == [] {
      s' := BuffersCanDrain(n, s, v + 1);
    } else {
      ReachableGoesOn(n, s, DrainBuffer(v));
      s' := BuffersCanDrain(n, Do(s, DrainBuffer(v)), v);
      OneStepFirst(s, DrainBuffer(v), s');
    }
  }

  /** `run` can launch its workers. */
  lemma LaunchIsPossible(n: nat, s: Ws) returns (s': Ws)
    requires Reachable(n, s) && s.main.Draining?
    ensures Quietly(s, s') && Reachable(n, s') && s'.bag == s.bag && s'.main.Waiting?
  {
    var s1 := FillingCanFinish(n, s);
    var s2 := BuffersCanDrain(n, s1, 0);
    ReachableGoesOn(n, s2, LaunchWorkers);
    s' := Do(s2, LaunchWorkers);
    NoStep(s');
    OneStepFirst(s2, LaunchWorkers, s');
    QuietlyThen(s1, s2, s');
    QuietlyThen(s, s1, s');
  }

  // ---------------------------------------------------------------- to the exit

  /** All work is done, `run` is joining its threads, and worker `v` has not left yet. */
  ghost predicate Leaving(n: nat, s: Ws, v: nat) {
    Reachable(n, s) && s.main.Joining? && Worker(s, v) && !s.workers[v].Exited?
  }

  lemma NothingLeftToDo(n: nat, s: Ws, v: nat)
    requires Leaving(n, s, v)
    ensures s.bag.queued == {} && s.pending == 0 && !s.workers[v].Running? && !s.workers[v].Submitting?
    ensures s.workers[v].CheckShutdown? ==> s.shutdown
  {
    ReachableMeansInv(n, s);
    if s.workers[v].Running? || s.workers[v].Submitting? {
      InHandIsRunning(s, v);
    }
  }

  /** The move starts nothing, and brings `v` closer to the exit. */
  ghost predicate NearsExit(s: Ws, v: nat, m: WsStep)
    requires v < |s.workers| == |s.deques|
  {
    && Enabled(s, m)
    && var s' := Do(s, m);
       LabelOf(s, m) == Tau ==>
         OnlyWorker(s, s', v) && |s'.workers| == |s'.deques| && Closer(s, s', v, true)
  }

  lemma PopNearsExit(n: nat, s: Ws, v: nat)
    requires Leaving(n, s, v) && (s.workers[v].Popping? || s.workers[v].AtTop?)
    ensures NearsExit(s, v, NextMove(s, v))
  {
    if s.workers[v].AtTop? {
      AtTopMove(n, s, v);
    } else {
      BetweenCalls(n, s, v);
      OwnerMoveDoes(s, v);
    }
  }

  lemma SweepNearsExit(n: nat, s: Ws, v: nat)
    requires Leaving(n, s, v) && (s.workers[v].Sweeping? || s.workers[v].Stealing?)
    ensures NearsExit(s, v, NextMove(s, v))
  {
    if s.workers[v].Sweeping? {
      SweepMove(n, s, v);
    } else {
      StealMove(n, s, v);
    }
  }

  /** The next move of `v` starts nothing any more, and brings it closer to the exit. */
  lemma TowardsExit(n: nat, s: Ws, v: nat)
    requires Leaving(n, s, v) && s.shutdown
    ensures NearsExit(s, v, NextMove(s, v))
    ensures LabelOf(s, NextMove(s, v)) == Tau
    ensures Reachable(n, Do(s, NextMove(s, v))) && Do(s, NextMove(s, v)).bag == s.bag
  {
    NothingLeftToDo(n, s, v);
    if s.workers[v].AtTop? || s.workers[v].Popping? {
      PopNearsExit(n, s, v);
    } else if s.workers[v].Sweeping? || s.workers[v].Stealing? {
      SweepNearsExit(n, s, v);
    } else {
      CheckMove(s, v);
    }
    WorkerMoveIsTauOrStart(s, v);
    ReachableGoesOn(n, s, NextMove(s, v));
  }

  lemma WorkerMoveIsTauOrStart(s: Ws, v: nat)
    requires Worker(s, v) && Enabled(s, NextMove(s, v))
    ensures LabelOf(s, NextMove(s, v)) == Tau || LabelOf(s, NextMove(s, v)).Start?
  {
  }

  /** Worker `v` can leave its loop; the others stay where they are. */
  lemma {:induction false} WorkerCanLeave(n: nat, s: Ws, v: nat, far: Distance) returns (s': Ws)
    requires Reachable(n, s) && s.main.Joining? && s.shutdown && Worker(s, v) && far == DistanceOf(s, v, true)
    ensures Quietly(s, s') && Reachable(n, s') && s'.bag == s.bag && OnlyWorker(s, s', v) && s'.workers[v].Exited?
    decreases far.stage, far.attempts, far.steal, far.phase, far.copies, far.stores
  {
    if s.workers[v].Exited? {
      s' := s;
      NoStep(s);
    } else {
      var m := NextMove(s, v);
      TowardsExit(n, s, v);
      CloserIsLess(s, Do(s, m), v, true);
      s' := WorkerCanLeave(n, Do(s, m), v, DistanceOf(Do(s, m), v, true));
      OneStepFirst(s, m, s');
    }
  }

  /** All workers from `v` on can leave, one after the other. */
  lemma {:induction false} WorkersCanLeave(n: nat, s: Ws, v: nat) returns (s': Ws)
    requires Reachable(n, s) && s.main.Joining? && s.shutdown && v <= |s.workers| == |s.deques|
    requires forall u | 0 <= u < v :: s.workers[u].Exited?
    ensures Quietly(s, s') && Reachable(n, s') && s'.bag == s.bag && s'.main.Joining?
    ensures forall u | 0 <= u < |s'.workers| :: s'.workers[u].Exited?
    decreases |s.workers| - v
  {
    if v == |s.workers| {
      s' := s;
      NoStep(s);
    } else {
      var s1 := WorkerCanLeave(n, s, v, DistanceOf(s, v, true));
      s' := WorkersCanLeave(n, s1, v + 1);
      QuietlyThen(s, s1, s');
    }
  }

  /** Once all work is done, `run` can get to the point where it returns. */
  lemma DoneCanReturn(n: nat, s: Ws) returns (s': Ws)
    requires Reachable(n, s) && Quiescent(s) && (s.main.Waiting? || s.main.Stopping? || s.main.Joining?)
    ensures Quietly(s, s') && Reachable(n, s') && s'.bag == s.bag && Enabled(s', JoinAll)
    decreases if s.main.Waiting? then 2 else if s.main.Stopping? then 1 else 0
  {
    ReachableMeansInv(n, s);
    if s.main.Joining? {
      var s1 := WorkersCanLeave(n, s, 0);
      s' := BuffersCanDrain(n, s1, 0);
      QuietlyThen(s, s1, s');
    } else {
      var m := if s.main.Waiting? then SeePendingZero else StoreShutdown;
      ReachableGoesOn(n, s, m);
      s' := DoneCanReturn(n, Do(s, m));
      OneStepFirst(s, m, s');
    }
  }
}
