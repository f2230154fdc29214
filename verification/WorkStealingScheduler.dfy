/**
 * The work-stealing scheduler in the code's own form: `submit`, `run` and the worker loop with its pop,
 * its exit checks and its victim sweep.  Deque operations are made step by step on the states of the
 * deque's transition system.  Ghost fields follow the scheduler's transition system; between any two
 * accesses of a thread the others may do whatever they like.  Loops that last until other threads have
 * done something are given a number of rounds, any number, after which the call is left standing.
 */
module WorkStealingSchedulers {
  import opened Wrappers
  import opened BagScheduler
  import opened BagTheorems
  import opened WorkStealingCalls
  import opened WorkStealingModel
  import opened WorkStealingInvariant
  import opened WorkStealingRuns
  import opened WorkStealingSteps
  import opened WorkStealingTheorems
  import D = DequeModel
  import R = DequeRefinement

  // ---------------------------------------------------------------- what a thread's place is

  /** Of one deque, worker `w` keeps its place as a thief ... */
  predicate ThiefUnmoved(w: nat, d: D.State, d': D.State) {
    |d'.thieves| == |d.thieves| && (w < |d.thieves| ==> d'.thieves[w] == d.thieves[w])
  }

  /** ... and, of its own, its place as the owner, while its stores may drain. */
  predicate OwnerUnmoved(d: D.State, d': D.State) {
    d'.owner == d.owner && |d'.buf| <= |d.buf|
  }

  /** What the steps of others leave to agent `me`, once the workers are launched. */
  ghost predicate Unmoved(me: Agent, s: Ws, s': Ws) {
    && Remembers(s.bag, s'.bag) && Launched(s') && s'.inject == s.inject
    && |s'.workers| == |s.workers| && |s'.deques| == |s.deques|
    && match me
       case Main => s'.main == s.main
       case AtWorker(w) =>
         && (w < |s.workers| ==> s'.workers[w] == s.workers[w])
         && (w < |s.deques| ==> OwnerUnmoved(s.deques[w], s'.deques[w]))
         && forall v | 0 <= v < |s.deques| :: ThiefUnmoved(w, s.deques[v], s'.deques[v])
  }

  /** Until `run` has returned, any step of another agent, and any drain, respects what `Others` promises below. */
  lemma OthersLeaveMine(me: Agent, s: Ws, step: WsStep)
    requires Launched(s) && !s.main.Returned? && Enabled(s, step) && By(step) != Some(me)
    ensures Unmoved(me, s, Do(s, step))
  {
    AfterRemembers(s.bag, LabelOf(s, step));
    if me.AtWorker? {
      OthersLeaveWorker(me.w, s, step);
    }
  }

  lemma OthersLeaveWorker(w: nat, s: Ws, step: WsStep)
    requires Launched(s) && !s.main.Returned? && Enabled(s, step) && By(step) != Some(AtWorker(w))
    ensures
      var s' := Do(s, step);
      && |s'.workers| == |s.workers| && |s'.deques| == |s.deques|
      && (w < |s.workers| ==> s'.workers[w] == s.workers[w])
      && (w < |s.deques| ==> OwnerUnmoved(s.deques[w], s'.deques[w]))
      && forall v | 0 <= v < |s.deques| :: ThiefUnmoved(w, s.deques[v], s'.deques[v])
  {
    StepKeepsSizes(s, step);
    forall v | 0 <= v < |s.deques|
      ensures ThiefUnmoved(w, s.deques[v], Do(s, step).deques[v])
    {
      OthersLeaveThief(w, s, step, v);
    }
  }

  lemma OthersLeaveThief(w: nat, s: Ws, step: WsStep, v: nat)
    requires Enabled(s, step) && !step.ClearWorkers? && By(step) != Some(AtWorker(w))
    requires v < |s.deques| == |Do(s, step).deques|
    ensures ThiefUnmoved(w, s.deques[v], Do(s, step).deques[v])
  {
    if step.ThiefStep? || step.StartSteal? {
      OtherThiefMoves(w, s, step, v);
    }
  }

  lemma OtherThiefMoves(w: nat, s: Ws, step: WsStep, v: nat)
    requires Enabled(s, step) && (step.ThiefStep? || step.StartSteal?) && step.w != w
    requires v < |s.deques| == |Do(s, step).deques|
    ensures ThiefUnmoved(w, s.deques[v], Do(s, step).deques[v])
  {
    var st := if step.ThiefStep? then step.st else D.ThiefLoadTop(step.w);
    ThiefOnlyMoves(s.deques[VictimOf(s, step.w)], st);
  }

  lemma ReturnMeans(n: nat, steps: seq<WsStep>, s: Ws)
    requires n >= 1 && Reaches(Init(n), steps, s) && s.main.Returned?
    ensures AllRanOnce(Labels(Init(n), steps))
    ensures forall v | 0 <= v < |s.deques| :: D.Content(s.deques[v]) == []
  {
    var labels := Labels(Init(n), steps);
    RunReturnsWhenAllIsDone(n, steps, s, 0);
    forall t
      ensures Starts(labels, t) == Finishes(labels, t) == Submissions(labels, t) <= 1
    {
      RunReturnsWhenAllIsDone(n, steps, s, t);
    }
  }

  /** The first access of a pop. */
  lemma PopStarts(s: Ws, w: nat)
    requires Worker(s, w) && s.workers[w].AtTop? && s.deques[w].owner.Idle?
    ensures
      var step, d' := OwnerStep(w, D.PopLoadBot), D.Do(s.deques[w], D.PopLoadBot);
      && Enabled(s, step) && R.OwnerCall(d'.owner).Popping?
      && Do(s, step) == s.(workers := s.workers[w := Popping], deques := s.deques[w := d'])
  {
  }

  /** One access of a steal, and where it leaves the worker. */
  lemma ThiefMoveDoes(s: Ws, w: nat)
    requires Worker(s, w) && s.workers[w].Stealing? && VictimOf(s, w) < |s.deques|
    requires w < |s.deques[VictimOf(s, w)].thieves| && !s.deques[VictimOf(s, w)].thieves[w].Out?
    ensures
      var v, pc := VictimOf(s, w), s.workers[w];
      var d := s.deques[v];
      var st, r := NextThiefStep(d.thieves[w], w), StolenNext(d, w);
      && D.Enabled(d, st) && Enabled(s, ThiefStep(w, st))
      && var d' := D.Do(d, st);
         && Act(s, ThiefStep(w, st)).deques == s.deques[v := d']
         && |d'.thieves| == |d.thieves| && ThiefPhase(d'.thieves[w]) < ThiefPhase(d.thieves[w])
         && Act(s, ThiefStep(w, st)).workers == s.workers[w :=
              if !d'.thieves[w].Out? then pc
              else if r.Some? then Running(r.value) else Sweeping(pc.start, pc.attempt + 1)]
  {
    ThiefStepAdvances(s.deques[VictimOf(s, w)], w, s.workers[w]);
  }

  /** A thief that is about to win is about to take the first task of its victim's deque. */
  lemma StealHappens(n: nat, run: seq<WsStep>, s: Ws, w: nat, since: nat)
    requires Reaches(Init(n), run, s) && since <= |run| && Worker(s, w) && s.workers[w].Stealing?
    requires VictimOf(s, w) < |s.deques| && w < |s.deques[VictimOf(s, w)].thieves|
    requires !s.deques[VictimOf(s, w)].thieves[w].Out?
    ensures
      var v := VictimOf(s, w);
      var d := s.deques[v];
      StolenNext(d, w).Some? ==>
        Happened(n, run + [ThiefStep(w, NextThiefStep(d.thieves[w], w))], since, v, R.StoleFirst(w, StolenNext(d, w)))
  {
    var v := VictimOf(s, w);
    var d := s.deques[v];
    ThiefStepAdvances(d, w, s.workers[w]);
    if StolenNext(d, w).Some? {
      HappensNow(n, run, s, ThiefStep(w, NextThiefStep(d.thieves[w], w)), since, v, R.StoleFirst(w, StolenNext(d, w)));
    }
  }

  /** The decrement counts the task, and leaves the loop just if nothing is left. */
  lemma FinishCounts(n: nat, run: seq<WsStep>, s: Ws, w: nat)
    requires n >= 1 && Reaches(Init(n), run, s) && Worker(s, w) && s.workers[w].Running?
    ensures
      var t, s' := s.workers[w].t, Do(s, FinishTask(w));
      && Counted(n, run + [FinishTask(w)], |run|, w, t, s.pending == 1)
      && s'.workers == s.workers[w := if s.pending == 1 then Exited else AtTop] && t in s'.bag.done
  {
    FinishDoes(s, w);
    LastToFinishLeaves(n, s, w);
    CountsNow(n, run, s, |run|, w, s.workers[w].t, s.pending == 1);
  }

  /** A sweeping worker begins a steal from the victim it is due to try, which is another worker. */
  lemma AttemptBegins(n: nat, run: seq<WsStep>, s: Ws, w: nat)
    requires n >= 1 && Reaches(Init(n), run, s) && Worker(s, w) && s.workers[w].Sweeping?
    requires s.workers[w].attempt + 1 < |s.deques|
    ensures
      var v := VictimOf(s, w);
      && v < |s.deques| && v != w && w < |s.deques[v].thieves| && Enabled(s, StartSteal(w))
      && TriedVictim(n, run + [StartSteal(w)], |run|, w, v)
  {
    AimsAtOther(n, s, w);
    TriesNow(n, run, s, |run|, w);
  }

  lemma StartStealDoes(s: Ws, w: nat)
    requires Enabled(s, StartSteal(w)) && VictimOf(s, w) < |s.deques| == |s.workers|
    requires w < |s.deques[VictimOf(s, w)].thieves|
    ensures
      var v, d := VictimOf(s, w), s.deques[VictimOf(s, w)];
      var s', pc := Do(s, StartSteal(w)), s.workers[w];
      && D.Enabled(d, D.ThiefLoadTop(w)) && s'.deques == s.deques[v := D.Do(d, D.ThiefLoadTop(w))]
      && |D.Do(d, D.ThiefLoadTop(w)).thieves| == |d.thieves| && !D.Do(d, D.ThiefLoadTop(w)).thieves[w].Out?
      && s'.workers == s.workers[w := Stealing(pc.start, pc.attempt)] && VictimOf(s', w) == v
      && s'.main == s.main && s'.inject == s.inject && s'.pending == s.pending && s'.shutdown == s.shutdown
  {
  }

  /** A step of `run` pushing the injected task `i`: the last one appends it to deque 0. */
  lemma InjectDoes(n: nat, run: seq<WsStep>, s: Ws, i: nat)
    requires Reaches(Init(n), run, s) && s.main == Draining(i) && i < |s.inject| && s.deques != []
    requires R.OwnerCall(s.deques[0].owner) == R.Pushing(s.inject[i]) && 0 <= s.deques[0].top <= |s.deques[0].log|
    ensures
      var d, st := s.deques[0], NextOwnerStep(s.deques[0]);
      && D.Enabled(d, st) && Enabled(s, MainOwnerStep(st))
      && var s', d' := Do(s, MainOwnerStep(st)), D.Do(d, st);
         && s'.deques == s.deques[0 := d'] && s'.main == Draining(if d'.owner.Idle? then i + 1 else i)
         && s'.inject == s.inject && s'.pending == s.pending && s'.shutdown == s.shutdown && s'.workers == s.workers
  {
    OwnerStepAdvances(s.deques[0]);
    PushStepAdvances(s.deques[0], s.inject[i]);
  }

  lemma InjectedHappens(n: nat, run: seq<WsStep>, s: Ws, i: nat)
    requires Reaches(Init(n), run, s) && s.main == Draining(i) && i < |s.inject| && s.deques != []
    requires R.OwnerCall(s.deques[0].owner) == R.Pushing(s.inject[i]) && 0 <= s.deques[0].top <= |s.deques[0].log|
    ensures
      var st := NextOwnerStep(s.deques[0]);
      st.PushStoreBot? ==> Happened(n, run + [MainOwnerStep(st)], |run|, 0, R.Pushed(s.inject[i]))
  {
    InjectDoes(n, run, s, i);
    if NextOwnerStep(s.deques[0]).PushStoreBot? {
      HappensNow(n, run, s, MainOwnerStep(D.PushStoreBot), |run|, 0, R.Pushed(s.inject[i]));
    }
  }

  /** Clearing the workers starts and finishes nothing. */
  lemma ClearingChangesNothing(n: nat, run: seq<WsStep>, run': seq<WsStep>)
    requires run' == run + [ClearWorkers] && AllRanOnce(Labels(Init(n), run))
    ensures AllRanOnce(Labels(Init(n), run'))
  {
    LabelsOfClearing(Init(n), run);
    ReuseChangesNothing(Labels(Init(n), run));
  }

  lemma {:induction false} LabelsOfClearing(s: Ws, run: seq<WsStep>)
    ensures
      var labels := Labels(s, run + [ClearWorkers]);
      labels == Labels(s, run) || labels == Labels(s, run) + [Reuse]
    decreases |run|
  {
    if run == [] {
      assert [ClearWorkers][1..] == [];
      assert run + [ClearWorkers] == [ClearWorkers];
    } else {
      assert (run + [ClearWorkers])[1..] == run[1..] + [ClearWorkers];
      if Enabled(s, run[0]) {
        LabelsOfClearing(Do(s, run[0]), run[1..]);
      }
    }
  }

  // ---------------------------------------------------------------- before the launch

  /** Until `run` is called nobody has touched a deque. */
  lemma {:induction false} DequesUntouched(n: nat, s: Ws, steps: seq<WsStep>, s': Ws)
    requires Reaches(s, steps, s') && s'.main.Building?
    requires (s.main.Building? ==> s.deques == Init(n).deques) && |s.deques| == n
    ensures s'.deques == Init(n).deques
    decreases |steps|
  {
    if steps != [] {
      StepKeepsSizes(s, steps[0]);
      DequesUntouched(n, Do(s, steps[0]), steps[1..], s');
    }
  }

  class WorkStealingScheduler {
    var inject: seq<Task>
    var deques: seq<D.State>
    var pending: int
    var shutdown: bool
    ghost var history: seq<WsStep>
    ghost var s: Ws

    ghost predicate Sound()
      reads this
    {
      |deques| >= 1 && Reaches(Init(|deques|), history, s)
    }

    /** The fields are what the transition system says they are. */
    ghost predicate Valid()
      reads this
    {
      && Sound() && s.inject == inject && s.deques == deques && s.pending == pending && s.shutdown == shutdown
      && |s.workers| == |deques|
    }

    /** Worker `w` is at place `pc` of its loop. */
    ghost predicate IsAt(w: nat, pc: WorkerPc)
      reads this
    {
      Worker(s, w) && s.workers[w] == pc
    }

    /** Since step `since` of the run, event `e` has happened to the deque of worker `v`. */
    ghost predicate Did(since: nat, v: nat, e: R.Event)
      reads this
    {
      Happened(|deques|, history, since, v, e)
    }

    constructor (n: nat)
      requires n >= 1
      ensures Valid() && s == Init(n) && history == []
    {
      inject, deques, pending, shutdown := [], seq(n, _ => D.Init(n)), 0, false;
      history, s := [], Init(n);
    }

    // -------------------------------------------------------------- single accesses

    ghost method Follow(step: WsStep)
      requires Sound() && Enabled(s, step) && |Do(s, step).deques| == |deques|
      modifies this`s, this`history
      ensures Sound() && s == Do(old(s), step) && history == old(history) + [step]
    {
      RunGoesOn(Init(|deques|), history, s, step);
      s, history := Do(s, step), history + [step];
    }

    /** Any steps of the other agents.  Only this contract is known of them; see `OthersLeaveMine`. */
    method Others(ghost me: Agent)
      requires Valid() && Launched(s)
      modifies this
      ensures Valid() && Unmoved(me, old(s), s) && OthersOnly(me, old(history), history)
    {
    }

    // -------------------------------------------------------------- the worker's own deque

    /** One step of the owner's call in progress; `r` is the popped task if that ends a pop. */
    method AdvanceOwner(w: nat) returns (r: Option<Task>)
      requires Valid() && Worker(s, w) && !deques[w].owner.Idle?
      requires s.workers[w].Popping? || s.workers[w].Submitting?
      modifies this
      ensures Valid() && Worker(s, w) && |deques| == |old(deques)| && Remembers(old(s).bag, s.bag)
      ensures deques[w] == D.Do(old(deques)[w], NextOwnerStep(old(deques)[w]))
      ensures r == PopResult(old(deques)[w], NextOwnerStep(old(deques)[w]))
      ensures history == old(history) + [OwnerMove(old(s), w)]
      ensures
        var pc := old(s).workers[w];
        s.workers[w] ==
          if !deques[w].owner.Idle? then pc
          else if pc.Submitting? then Running(pc.t)
          else if r.Some? then Running(r.value) else CheckPending
    {
      var d := deques[w];
      OwnerStepAdvances(d);
      AfterRemembers(s.bag, LabelOf(s, OwnerMove(s, w)));
      var st := NextOwnerStep(d);
      r := PopResult(d, st);
      deques := deques[w := D.Do(d, st)];
      Follow(OwnerMove(s, w));
    }

    ghost predicate InPop(w: nat, since: nat, r: Option<Task>)
      reads this
    {
      && w < |deques| && since <= |history| && PopSoFar(|deques|, history, since, w, deques[w], r)
      && IsAt(w, if !deques[w].owner.Idle? then Popping else if r.Some? then Running(r.value) else CheckPending)
    }

    method AdvancePop(w: nat, ghost since: nat, ghost before: Option<Task>) returns (r: Option<Task>)
      requires Valid() && InPop(w, since, before) && !deques[w].owner.Idle?
      modifies this
      ensures Valid() && |deques| == |old(deques)| && old(history) <= history && InPop(w, since, r)
      ensures OwnerCloser(old(deques)[w], deques[w])
    {
      OwnersHoldTasks(|deques|, s, w);
      OwnerStepAdvances(deques[w]);
      PopStepSoFar(|deques|, history, s, since, w, before);
      r := AdvanceOwner(w);
    }

    /** A pop on its way to its end, the others doing what they like between any two of its steps. */
    method CompletePop(w: nat) returns (r: Option<Task>)
      requires Valid() && IsAt(w, Popping) && R.OwnerCall(deques[w].owner).Popping?
      modifies this
      ensures Valid() && |deques| == |old(deques)| && old(history) <= history
      ensures IsAt(w, if r.Some? then Running(r.value) else CheckPending)
      ensures Did(old(|history|), w, PopEvent(r))
    {
      ghost var since := |history|;
      r := None;
      while !deques[w].owner.Idle?
        invariant Valid() && |deques| == |old(deques)| && old(history) <= history && InPop(w, since, r)
        decreases OwnerPhase(deques[w].owner), LeftToCopy(deques[w].owner), |deques[w].buf|
      {
        r := AdvancePop(w, since, r);
        ghost var run, d := history, deques[w];
        Others(AtWorker(w));
        PopSoFarStays(|deques|, run, history, since, w, d, deques[w], r);
      }
    }

    /** Pops the worker's own deque: the last task of it, unless it was empty at one instant of the pop. */
    method Pop(w: nat) returns (r: Option<Task>)
      requires Valid() && IsAt(w, AtTop)
      modifies this
      ensures Valid() && |deques| == |old(deques)|
      ensures IsAt(w, if r.Some? then Running(r.value) else CheckPending)
      ensures Did(old(|history|), w, PopEvent(r)) && old(history) + [OwnerStep(w, D.PopLoadBot)] <= history
    {
      StartPop(w);
      r := CompletePop(w);
      DidEarlier(old(|history|), old(|history|) + 1, w, PopEvent(r));
    }

    method StartPop(w: nat)
      requires Valid() && IsAt(w, AtTop)
      modifies this
      ensures Valid() && |deques| == |old(deques)| && IsAt(w, Popping) && R.OwnerCall(deques[w].owner).Popping?
      ensures history == old(history) + [OwnerStep(w, D.PopLoadBot)]
    {
      BetweenCalls(|deques|, s, w);
      PopStarts(s, w);
      deques := deques[w := D.Do(deques[w], D.PopLoadBot)];
      Follow(OwnerStep(w, D.PopLoadBot));
    }

    lemma DidEarlier(since: nat, later: nat, v: nat, e: R.Event)
      requires since <= later && Did(later, v, e)
      ensures Did(since, v, e)
    {
    }

    ghost predicate InPush(w: nat, since: nat, t: Task, x: Task)
      reads this
    {
      && w < |deques| && since <= |history| && PushSoFar(|deques|, history, since, w, deques[w], x)
      && IsAt(w, if !deques[w].owner.Idle? then Submitting(t, x) else Running(t))
    }

    method AdvancePush(w: nat, ghost since: nat, ghost t: Task, ghost x: Task)
      requires Valid() && InPush(w, since, t, x) && !deques[w].owner.Idle?
      modifies this
      ensures Valid() && |deques| == |old(deques)| && old(history) <= history && InPush(w, since, t, x)
      ensures OwnerCloser(old(deques)[w], deques[w]) && Remembers(old(s).bag, s.bag)
    {
      OwnersHoldTasks(|deques|, s, w);
      OwnerStepAdvances(deques[w]);
      PushStepSoFar(|deques|, history, s, since, w, x);
      var r := AdvanceOwner(w);
    }

    /** A push on its way to its end. */
    method CompletePush(w: nat, ghost t: Task, ghost x: Task)
      requires Valid() && IsAt(w, Submitting(t, x)) && R.OwnerCall(deques[w].owner) == R.Pushing(x)
      modifies this
      ensures Valid() && |deques| == |old(deques)| && old(history) <= history && Remembers(old(s).bag, s.bag)
      ensures IsAt(w, Running(t)) && Did(old(|history|), w, R.Pushed(x))
    {
      ghost var since := |history|;
      while !deques[w].owner.Idle?
        invariant Valid() && |deques| == |old(deques)| && old(history) <= history && InPush(w, since, t, x)
        invariant Remembers(old(s).bag, s.bag)
        decreases OwnerPhase(deques[w].owner), LeftToCopy(deques[w].owner), |deques[w].buf|
      {
        AdvancePush(w, since, t, x);
        ghost var run, d := history, deques[w];
        Others(AtWorker(w));
        PushSoFarStays(|deques|, run, history, since, w, d, deques[w], x);
      }
    }

    /** `submit` from inside a task of worker `w`: counted first, then appended to the worker's own deque. */
    method SubmitFromTask(w: nat, ghost t: Task, x: Task)
      requires Valid() && IsAt(w, Running(t)) && Unseen(s.bag, x)
      modifies this
      ensures Valid() && |deques| == |old(deques)| && IsAt(w, Running(t)) && !Unseen(s.bag, x)
      ensures Did(old(|history|), w, R.Pushed(x)) && old(history) <= history
    {
      CountChild(w, t, x);
      StartPush(w, t, x);
      ghost var later := |history|;
      CompletePush(w, t, x);
      DidEarlier(old(|history|), later, w, R.Pushed(x));
    }

    method CountChild(w: nat, ghost t: Task, x: Task)
      requires Valid() && IsAt(w, Running(t)) && Unseen(s.bag, x)
      modifies this
      ensures Valid() && |deques| == |old(deques)| && IsAt(w, Submitting(t, x)) && deques[w].owner.Idle?
      ensures !Unseen(s.bag, x) && old(history) <= history
    {
      BetweenCalls(|deques|, s, w);
      pending := pending + 1;
      Follow(SubmitChild(w, x));
      Others(AtWorker(w));
    }

    method StartPush(w: nat, ghost t: Task, x: Task)
      requires Valid() && IsAt(w, Submitting(t, x)) && deques[w].owner.Idle?
      modifies this
      ensures Valid() && |deques| == |old(deques)| && IsAt(w, Submitting(t, x))
      ensures R.OwnerCall(deques[w].owner) == R.Pushing(x) && Remembers(old(s).bag, s.bag) && old(history) <= history
    {
      deques := deques[w := D.Do(deques[w], D.PushLoadBot(x))];
      Follow(OwnerStep(w, D.PushLoadBot(x)));
    }

    // -------------------------------------------------------------- stealing

    /** What the steal on the deque of `v` has come to: still going on, or won with its event, or over. */
    ghost predicate InSteal(w: nat, v: nat, start: nat, attempt: nat, since: nat, r: Option<Task>)
      reads this
    {
      && v < |deques| && w < |deques[v].thieves| && since <= |history|
      && IsAt(w,
           if !deques[v].thieves[w].Out? then Stealing(start, attempt)
           else if r.Some? then Running(r.value) else Sweeping(start, attempt + 1))
      && (!deques[v].thieves[w].Out? ==> v == VictimOf(s, w))
      && (deques[v].thieves[w].Out? && r.Some? ==> Did(since, v, R.StoleFirst(w, r)))
    }

    method AdvanceThief(w: nat, v: nat, ghost start: nat, ghost attempt: nat, ghost since: nat,
                        ghost before: Option<Task>)
      returns (r: Option<Task>)
      requires Valid() && InSteal(w, v, start, attempt, since, before) && !deques[v].thieves[w].Out?
      modifies this
      ensures Valid() && |deques| == |old(deques)| && old(history) <= history
      ensures InSteal(w, v, start, attempt, since, r)
      ensures ThiefPhase(deques[v].thieves[w]) < ThiefPhase(old(deques)[v].thieves[w])
    {
      StealHappens(|deques|, history, s, w, since);
      r := AccessVictim(w, v);
    }

    /** One access of the thief to its victim's deque. */
    method AccessVictim(w: nat, v: nat) returns (r: Option<Task>)
      requires Valid() && Worker(s, w) && s.workers[w].Stealing? && v == VictimOf(s, w) < |deques|
      requires w < |deques[v].thieves| && !deques[v].thieves[w].Out?
      modifies this`deques, this`s, this`history
      ensures Valid() && Worker(s, w) && |deques| == |old(deques)| && w < |deques[v].thieves|
      ensures history == old(history) + [ThiefStep(w, NextThiefStep(old(deques)[v].thieves[w], w))]
      ensures r == StolenNext(old(deques)[v], w)
      ensures ThiefPhase(deques[v].thieves[w]) < ThiefPhase(old(deques)[v].thieves[w])
      ensures
        var pc := old(s).workers[w];
        s.workers[w] ==
          if !deques[v].thieves[w].Out? then pc
          else if r.Some? then Running(r.value) else Sweeping(pc.start, pc.attempt + 1)
    {
      ThiefMoveDoes(s, w);
      var st := NextThiefStep(deques[v].thieves[w], w);
      r := StolenNext(deques[v], w);
      deques := deques[v := D.Do(deques[v], st)];
      Follow(ThiefStep(w, st));
    }

    method BeginAttempt(w: nat, ghost start: nat, ghost attempt: nat, v: nat)
      requires Valid() && IsAt(w, Sweeping(start, attempt)) && attempt + 1 < |deques| && v == VictimOf(s, w)
      modifies this
      ensures Valid() && |deques| == |old(deques)| && IsAt(w, Stealing(start, attempt)) && old(history) <= history
      ensures v < |deques| && w < |deques[v].thieves| && !deques[v].thieves[w].Out? && v == VictimOf(s, w)
      ensures TriedVictim(|deques|, history, |old(history)|, w, v)
    {
      AttemptBegins(|deques|, history, s, w);
      StartStealDoes(s, w);
      deques := deques[v := D.Do(deques[v], D.ThiefLoadTop(w))];
      Follow(StartSteal(w));
    }

    /** One attempt: a steal from the victim, which takes the oldest task of its deque if it takes any. */
    method Attempt(w: nat, ghost start: nat, ghost attempt: nat, v: nat) returns (r: Option<Task>)
      requires Valid() && IsAt(w, Sweeping(start, attempt)) && attempt + 1 < |deques| && v == VictimOf(s, w)
      modifies this
      ensures Valid() && |deques| == |old(deques)|
      ensures IsAt(w, if r.Some? then Running(r.value) else Sweeping(start, attempt + 1))
      ensures r.Some? ==> Did(old(|history|), v, R.StoleFirst(w, r))
      ensures old(history) <= history && TriedVictim(|deques|, history, |old(history)|, w, v)
    {
      BeginAttempt(w, start, attempt, v);
      ghost var begun := history;
      Others(AtWorker(w));
      ghost var since := old(|history|);
      r := None;
      while !deques[v].thieves[w].Out?
        invariant Valid() && |deques| == |old(deques)| && InSteal(w, v, start, attempt, since, r) && begun <= history
        decreases ThiefPhase(deques[v].thieves[w])
      {
        r := AdvanceThief(w, v, start, attempt, since, r);
        ghost var run := history;
        Others(AtWorker(w));
        if r.Some? && deques[v].thieves[w].Out? {
          HappenedStays(|deques|, run, history, since, v, R.StoleFirst(w, r));
        }
      }
      TriedStays(|deques|, begun, history, since, w, v);
    }

    /** The worker an attempt lands on, or the next one if that is oneself. */
    static method PickVictim(w: nat, n: nat, start: nat, attempt: nat) returns (victim: nat)
      requires n > 0
      ensures victim == Victim(w, n, start, attempt)
    {
      victim := (start + attempt) % n;
      if victim == w {
        victim := (victim + 1) % n;
      }
    }

    /** The sweep has tried just its first victims, in order, since step `since`, and has found `r` at the last. */
    ghost predicate Swept(w: nat, start: nat, r: Option<Task>, tried: seq<nat>, since: nat)
      reads this
    {
      && Valid() && |tried| < |deques| && tried == Victims(w, |deques|, start, |tried|)
      && IsAt(w, if r.Some? then Running(r.value) else Sweeping(start, |tried|))
      && since <= |history| && TriedAll(|deques|, history, since, w, tried)
    }

    /** One attempt of the sweep, at the victim it is due to try. */
    method AttemptNext(w: nat, start: nat, attempt: nat) returns (r: Option<Task>, victim: nat)
      requires Valid() && IsAt(w, Sweeping(start, attempt)) && attempt + 1 < |deques|
      modifies this
      ensures Valid() && |deques| == |old(deques)| && old(history) <= history
      ensures IsAt(w, if r.Some? then Running(r.value) else Sweeping(start, attempt + 1))
      ensures victim == Victim(w, |deques|, start, attempt) && victim != w
      ensures TriedVictim(|deques|, history, |old(history)|, w, victim)
      ensures r.Some? ==> Did(|old(history)|, victim, R.StoleFirst(w, r))
    {
      victim := PickVictim(w, |deques|, start, attempt);
      VictimIsNotSelf(w, |deques|, start, attempt);
      r := Attempt(w, start, attempt, victim);
    }

    /** That attempt as part of the sweep. */
    method TryNext(w: nat, start: nat, tried: seq<nat>, ghost since: nat) returns (r: Option<Task>, tried': seq<nat>)
      requires Swept(w, start, None, tried, since) && |tried| + 1 < |deques|
      modifies this
      ensures |deques| == |old(deques)| && |tried'| == |tried| + 1 && Swept(w, start, r, tried', since)
      ensures r.Some? ==> Last(tried') != w && Did(old(|history|), Last(tried'), R.StoleFirst(w, r))
      ensures old(history) <= history
    {
      var victim;
      r, victim := AttemptNext(w, start, |tried|);
      SweepGoesOn(w, start, r, tried, victim, since, old(history));
      tried' := tried + [victim];
    }

    lemma SweepGoesOn(w: nat, start: nat, r: Option<Task>, tried: seq<nat>, victim: nat, since: nat, run: seq<WsStep>)
      requires Valid() && |tried| + 1 < |deques| && tried == Victims(w, |deques|, start, |tried|)
      requires victim == Victim(w, |deques|, start, |tried|)
      requires IsAt(w, if r.Some? then Running(r.value) else Sweeping(start, |tried| + 1))
      requires since <= |run| && run <= history && TriedAll(|deques|, run, since, w, tried)
      requires TriedVictim(|deques|, history, |run|, w, victim)
      ensures Swept(w, start, r, tried + [victim], since)
    {
      VictimsGrow(w, |deques|, start, tried);
      TriedOneMore(|deques|, run, history, since, w, tried, victim);
    }

    lemma TriedEarlier(since: nat, later: nat, w: nat, v: nat)
      requires since <= later && TriedVictim(|deques|, history, later, w, v)
      ensures TriedVictim(|deques|, history, since, w, v)
    {
    }

    /** The victim sweep: stops at the first task stolen, and otherwise has tried just `Victims`, in that order. */
    method Sweep(w: nat, start: nat) returns (r: Option<Task>, tried: seq<nat>)
      requires Valid() && IsAt(w, Sweeping(start, 0))
      modifies this
      ensures |deques| == |old(deques)| && Swept(w, start, r, tried, |old(history)|) && old(history) <= history
      ensures if r.Some? then tried != [] && Last(tried) != w && Did(|old(history)|, Last(tried), R.StoleFirst(w, r))
              else |tried| == |deques| - 1
    {
      r, tried := None, [];
      while |tried| + 1 < |deques| && r.None?
        invariant |deques| == |old(deques)| && Swept(w, start, r, tried, |old(history)|) && old(history) <= history
        invariant r.Some? ==>
          tried != [] && Last(tried) != w && Did(|old(history)|, Last(tried), R.StoleFirst(w, r))
        decreases |deques| - |tried|
      {
        ghost var later := |history|;
        r, tried := TryNext(w, start, tried, |old(history)|);
        if r.Some? {
          DidEarlier(|old(history)|, later, Last(tried), R.StoleFirst(w, r));
        }
      }
    }

    ghost method GiveUp(w: nat, start: nat, attempt: nat)
      requires Valid() && IsAt(w, Sweeping(start, attempt)) && attempt + 1 >= |deques|
      modifies this`s, this`history
      ensures Valid() && IsAt(w, AtTop) && old(history) <= history && s.bag == old(s).bag
    {
      Follow(GiveUpSweep(w));
    }

    // -------------------------------------------------------------- the worker loop

    /** The task's own code, submissions included (see `SubmitFromTask`). */
    method RunTask(w: nat, ghost t: Task)
      requires Valid() && IsAt(w, Running(t))
      modifies this
      ensures Valid() && |deques| == |old(deques)| && IsAt(w, Running(t)) && old(history) <= history
    {
      Others(AtWorker(w));
    }

    /** Runs the task and counts it as done; `last` exactly if nothing is left anywhere at that moment. */
    method RunAndCount(w: nat, ghost t: Task) returns (last: bool)
      requires Valid() && IsAt(w, Running(t))
      modifies this
      ensures Valid() && |deques| == |old(deques)| && IsAt(w, if last then Exited else AtTop) && t in s.bag.done
      ensures old(history) <= history && Counted(|deques|, history, |old(history)|, w, t, last)
    {
      RunTask(w, t);
      ghost var later := |history|;
      last := CountDown(w, t);
      ghost var run := history;
      Others(AtWorker(w));
      CountedStays(|deques|, run, history, |old(history)|, later, w, t, last);
    }

    /** `pending_.fetch_sub(1) == 1`. */
    method CountDown(w: nat, ghost t: Task) returns (last: bool)
      requires Valid() && IsAt(w, Running(t))
      modifies this`pending, this`s, this`history
      ensures Valid() && IsAt(w, if last then Exited else AtTop) && t in s.bag.done
      ensures pending == old(pending) - 1 && last == (old(pending) == 1)
      ensures old(history) <= history && Counted(|deques|, history, |old(history)|, w, t, last)
    {
      last := pending == 1;
      FinishCounts(|deques|, history, s, w);
      pending := pending - 1;
      Follow(WsStep.FinishTask(w));
    }

    method CheckPendingZero(w: nat) returns (leave: bool)
      requires Valid() && IsAt(w, CheckPending)
      modifies this
      ensures Valid() && |deques| == |old(deques)| && IsAt(w, if leave then Exited else CheckShutdown)
      ensures leave == (old(pending) == 0) && old(history) <= history
    {
      leave := pending == 0;
      Follow(LoadPending(w));
      Others(AtWorker(w));
    }

    /** The second exit check, and the draw of the first victim. */
    method CheckShutdownAndDraw(w: nat, draw: nat) returns (leave: bool, start: nat)
      requires Valid() && IsAt(w, CheckShutdown)
      modifies this
      ensures Valid() && |deques| == |old(deques)| && old(history) <= history
      ensures IsAt(w, if leave then Exited else if |deques| > 1 then Sweeping(start, 0) else AtTop)
      ensures leave == old(shutdown)
      ensures |deques| > 1 ==> start < |deques| && start != w && start == StartVictim(w, |deques|, draw)
    {
      leave := shutdown;
      start := 0;
      if |deques| > 1 {
        start := draw % (|deques| - 1);
        if start >= w {
          start := start + 1;
        }
      }
      Follow(LoadShutdown(w, draw));
      Others(AtWorker(w));
    }

    /** One round of the loop, as `RoundDid` says. */
    method Round(w: nat, draw: nat) returns (leave: bool)
      requires Valid() && IsAt(w, AtTop)
      modifies this
      ensures Valid() && |deques| == |old(deques)| && IsAt(w, if leave then Exited else AtTop)
      ensures old(history) + [OwnerStep(w, D.PopLoadBot)] <= history
      ensures RoundDid(|deques|, history, |old(history)|, w, s.bag, leave)
      ensures leave ==> pending == 0 && Quiescent(s)
    {
      var task := Pop(w);
      ghost var popped := history;
      if task.Some? {
        leave := RunAndCount(w, task.value);
        CountedStays(|deques|, history, history, |old(history)|, |popped|, w, task.value, leave);
      } else {
        leave := FindOther(w, draw, |old(history)|);
      }
      HappenedStays(|deques|, popped, history, |old(history)|, w, PopEvent(task));
      if leave {
        LeavingMeansDone(|deques|, s, w);
      }
    }

    /** With nothing to pop: leaves, or runs a stolen task, or finds nothing to steal anywhere. */
    method FindOther(w: nat, draw: nat, ghost since: nat) returns (leave: bool)
      requires Valid() && IsAt(w, CheckPending) && since <= |history|
      modifies this
      ensures Valid() && |deques| == |old(deques)| && IsAt(w, if leave then Exited else AtTop)
      ensures old(history) <= history
      ensures leave || |deques| == 1 || RanStolen(|deques|, history, since, w, s.bag, leave)
        || SweptInVain(|deques|, history, since, w)
    {
      leave := CheckPendingZero(w);
      if leave {
        return;
      }
      var start;
      leave, start := CheckShutdownAndDraw(w, draw);
      if !leave && |deques| > 1 {
        leave := StealAndRun(w, start, since);
      }
    }

    method StealAndRun(w: nat, start: nat, ghost since: nat) returns (leave: bool)
      requires Valid() && IsAt(w, Sweeping(start, 0)) && start < |deques| && start != w && since <= |history|
      modifies this
      ensures Valid() && |deques| == |old(deques)| && IsAt(w, if leave then Exited else AtTop)
      ensures old(history) <= history
      ensures RanStolen(|deques|, history, since, w, s.bag, leave) || SweptInVain(|deques|, history, since, w)
    {
      var stolen, tried := Sweep(w, start);
      ghost var swept := history;
      if stolen.Some? {
        leave := RunAndCount(w, stolen.value);
        HappenedStays(|deques|, swept, history, |old(history)|, Last(tried), R.StoleFirst(w, stolen));
        DidEarlier(since, |old(history)|, Last(tried), R.StoleFirst(w, stolen));
        CountedStays(|deques|, history, history, since, |swept|, w, stolen.value, leave);
        assert RanStolen(|deques|, history, since, w, s.bag, leave);
      } else {
        leave := false;
        GiveUp(w, start, |tried|);
        TriedAllStays(|deques|, swept, history, |old(history)|, w, tried);
        TriedAllEarlier(since, |old(history)|, w, tried);
        assert SweptFrom(|deques|, history, since, w, start);
      }
    }

    lemma TriedAllEarlier(since: nat, later: nat, w: nat, victims: seq<nat>)
      requires since <= later && TriedAll(|deques|, history, later, w, victims)
      ensures TriedAll(|deques|, history, since, w, victims)
    {
      forall i | 0 <= i < |victims|
        ensures TriedVictim(|deques|, history, since, w, victims[i])
      {
        TriedEarlier(since, later, w, victims[i]);
      }
    }

    /**
     * A worker leaves its loop only when no task is left anywhere, whatever is drawn and whoever else runs; otherwise
     * it goes through a round for each draw.
     */
    method WorkerLoop(w: nat, draws: seq<nat>) returns (left: bool)
      requires Valid() && IsAt(w, AtTop)
      modifies this
      ensures Valid() && |deques| == |old(deques)| && IsAt(w, if left then Exited else AtTop)
      ensures left ==> pending == 0 && Quiescent(s)
      ensures old(history) <= history
      ensures !left ==> Times(history[|old(history)|..], OwnerStep(w, D.PopLoadBot)) >= |draws|
    {
      left := false;
      var k := 0;
      while k < |draws| && !left
        invariant k <= |draws| && Valid() && |deques| == |old(deques)| && IsAt(w, if left then Exited else AtTop)
        invariant old(history) <= history
        invariant Times(history[|old(history)|..], OwnerStep(w, D.PopLoadBot)) >= k
      {
        ghost var run := history;
        left := Round(w, draws[k]);
        OnceMore(run, history, |old(history)|, OwnerStep(w, D.PopLoadBot));
        k := k + 1;
      }
      if left {
        LeavingMeansDone(|deques|, s, w);
      }
    }

    // -------------------------------------------------------------- submit and run

    method SubmitExternally(x: Task)
      requires Valid() && s.main.Building? && Unseen(s.bag, x)
      modifies this`inject, this`pending, this`s, this`history
      ensures Valid() && s.main.Building? && inject == old(inject) + [x] && pending == old(pending) + 1
      ensures !Unseen(s.bag, x)
    {
      pending := pending + 1;
      inject := inject + [x];
      Follow(SubmitExternal(x));
    }

    /** `submit`: by the thread-local worker number, which is out of range for threads that are no workers. */
    method Submit(wid: int, ghost t: Task, x: Task)
      requires Valid() && Unseen(s.bag, x)
      requires if 0 <= wid < |deques| then IsAt(wid, Running(t)) else s.main.Building?
      modifies this
      ensures Valid() && !Unseen(s.bag, x) && |deques| == |old(deques)|
      ensures if 0 <= wid < |deques| then IsAt(wid, Running(t)) else s.main.Building? && inject == old(inject) + [x]
      ensures 0 <= wid < |deques| ==> Did(|old(history)|, wid, R.Pushed(x))
    {
      if 0 <= wid < |deques| {
        SubmitFromTask(wid, t, x);
      } else {
        SubmitExternally(x);
      }
    }

    /** `run` is filling deque 0 and has come to task `i` of the injection queue. */
    ghost predicate Filling(i: nat)
      reads this
    {
      s.main == Draining(i) && i <= |inject| && deques != [] && 0 <= deques[0].top <= |deques[0].log|
    }

    /** The first `i` tasks of the injection queue, and nothing else, are in deque 0. */
    ghost predicate Filled(i: nat)
      reads this
    {
      Filling(i) && deques[0].owner.Idle? && D.Content(deques[0]) == inject[..i]
    }

    /** Task `i` is being pushed behind them. */
    ghost predicate BeingFilled(i: nat)
      reads this
    {
      && Filling(i) && i < |inject| && D.Content(deques[0]) == inject[..i]
      && R.OwnerCall(deques[0].owner) == R.Pushing(inject[i])
    }

    method StartInjected(i: nat)
      requires Valid() && Filled(i) && i < |inject|
      modifies this`deques, this`s, this`history
      ensures Valid() && BeingFilled(i) && |deques| == |old(deques)| && old(history) <= history
    {
      deques := deques[0 := D.Do(deques[0], D.PushLoadBot(inject[i]))];
      Follow(MainOwnerStep(D.PushLoadBot(inject[i])));
    }

    method AdvanceInjected(i: nat)
      requires Valid() && BeingFilled(i)
      modifies this`deques, this`s, this`history
      ensures Valid() && |deques| == |old(deques)|
      ensures if deques[0].owner.Idle? then Filled(i + 1) else BeingFilled(i)
      ensures deques[0].owner.Idle? ==> Did(|old(history)|, 0, R.Pushed(inject[i]))
      ensures OwnerCloser(old(deques)[0], deques[0]) && old(history) <= history
    {
      OwnerStepAdvances(deques[0]);
      PushStepAdvances(deques[0], inject[i]);
      InjectedHappens(|deques|, history, s, i);
      StepInjected(i);
      assert inject[..i] + [inject[i]] == inject[..i + 1];
    }

    method StepInjected(i: nat)
      requires Valid() && BeingFilled(i)
      modifies this`deques, this`s, this`history
      ensures Valid() && deques == old(deques)[0 := D.Do(old(deques)[0], NextOwnerStep(old(deques)[0]))]
      ensures s.main == Draining(if deques[0].owner.Idle? then i + 1 else i)
      ensures history == old(history) + [MainOwnerStep(NextOwnerStep(old(deques)[0]))]
    {
      InjectDoes(|deques|, history, s, i);
      var st := NextOwnerStep(deques[0]);
      deques := deques[0 := D.Do(deques[0], st)];
      Follow(MainOwnerStep(st));
    }

    /** Pushes task `i` of the injection queue on deque 0. */
    method PushInjected(i: nat)
      requires Valid() && Filled(i) && i < |inject|
      modifies this`deques, this`s, this`history
      ensures Valid() && Filled(i + 1) && |deques| == |old(deques)| && old(history) <= history
      ensures Did(|old(history)|, 0, R.Pushed(inject[i]))
    {
      StartInjected(i);
      while !deques[0].owner.Idle?
        invariant Valid() && |deques| == |old(deques)| && old(history) <= history
        invariant if |deques| > 0 && deques[0].owner.Idle? then Filled(i + 1) else BeingFilled(i)
        invariant deques[0].owner.Idle? ==> Did(|old(history)|, 0, R.Pushed(inject[i]))
        decreases OwnerPhase(deques[0].owner), LeftToCopy(deques[0].owner), |deques[0].buf|
      {
        ghost var later := |history|;
        AdvanceInjected(i);
        if deques[0].owner.Idle? {
          DidEarlier(|old(history)|, later, 0, R.Pushed(inject[i]));
        }
      }
    }

    method BeginRun()
      requires Valid() && s.main.Building?
      modifies this`shutdown, this`s, this`history
      ensures Valid() && Filled(0) && history == old(history) + [CallRun]
    {
      DequesUntouched(|deques|, Init(|deques|), history, s);
      assert inject[..0] == [];
      shutdown := false;
      Follow(CallRun);
    }

    /** Moves the injection queue into deque 0, in order. */
    method DrainInjected()
      requires Valid() && s.main.Building?
      modifies this
      ensures Valid() && Filling(|inject|) && inject == old(inject) && |deques| == |old(deques)|
      ensures D.Content(deques[0]) == inject && pending == old(pending) && old(history) <= history
      ensures PushedAll(|deques|, history, |old(history)|, inject)
    {
      BeginRun();
      var i := 0;
      while i < |inject|
        invariant i <= |inject| && inject == old(inject) && |deques| == |old(deques)| && pending == old(pending)
        invariant Valid() && Filled(i) && old(history) <= history
        invariant PushedAll(|deques|, history, |old(history)|, inject[..i])
      {
        ghost var run := history;
        PushInjected(i);
        PushedAllStays(|deques|, run, history, |old(history)|, inject[..i]);
        DidEarlier(|old(history)|, |run|, 0, R.Pushed(inject[i]));
        OnePushedMore(|deques|, history, |old(history)|, inject, i);
        i := i + 1;
      }
      assert inject[..i] == inject;
    }

    /** Creating the threads makes all earlier stores visible to them. */
    method DrainAll()
      requires Valid() && Filling(|inject|)
      modifies this
      ensures Valid() && s.main == Draining(|inject|) && |deques| == |old(deques)| && inject == old(inject)
      ensures forall k | 0 <= k < |deques| :: deques[k].buf == []
      ensures D.Content(deques[0]) == D.Content(old(deques)[0]) && pending == old(pending) && old(history) <= history
    {
      var v := 0;
      while v < |deques|
        invariant v <= |deques| == |old(deques)| && Valid() && s.main == Draining(|inject|) && inject == old(inject)
        invariant D.Content(deques[0]) == D.Content(old(deques)[0]) && pending == old(pending)
        invariant old(history) <= history
        invariant forall k | 0 <= k < v :: deques[k].buf == []
        decreases |deques| - v, if v < |deques| then |deques[v].buf| else 0
      {
        if deques[v].buf == [] {
          v := v + 1;
        } else {
          DrainOldest(v);
        }
      }
    }

    /** The oldest pending store of `run` to deque `v` becomes visible. */
    method DrainOldest(v: nat)
      requires Valid() && s.main == Draining(|inject|) && v < |deques| && deques[v].buf != []
      modifies this`deques, this`s, this`history
      ensures Valid() && s.main == Draining(|inject|) && |deques| == |old(deques)|
      ensures |deques[v].buf| == |old(deques)[v].buf| - 1
      ensures forall k | 0 <= k < |deques| && k != v :: deques[k] == old(deques)[k]
      ensures D.Content(deques[v]) == D.Content(old(deques)[v]) && old(history) <= history
    {
      deques := deques[v := D.Do(deques[v], D.Drain)];
      Follow(DrainBuffer(v));
    }

    /** Clears the injection queue, whose tasks are all in deque 0 by now, and lets the workers loose. */
    method Launch()
      requires Valid() && s.main == Draining(|inject|) && forall k | 0 <= k < |deques| :: deques[k].buf == []
      modifies this
      ensures Valid() && s.main == Waiting && |deques| == |old(deques)| && inject == []
      ensures LaunchedWith(|deques|, history, |old(history)|, D.Content(old(deques)[0]))
      ensures old(history) <= history && (old(pending) == 0 ==> pending == 0)
    {
      StartThreads();
      ghost var run, m := history, s;
      Others(Main);
      LaunchedWithStays(|deques|, run, history, |old(history)|, D.Content(old(deques)[0]));
      if m.pending == 0 {
        ZeroStaysAmongOthers(|deques|, run, m, history, s);
      }
    }

    method StartThreads()
      requires Valid() && s.main == Draining(|inject|) && forall k | 0 <= k < |deques| :: deques[k].buf == []
      modifies this`inject, this`s, this`history
      ensures Valid() && s.main == Waiting && inject == [] && history == old(history) + [LaunchWorkers]
      ensures LaunchedWith(|deques|, history, |old(history)|, D.Content(deques[0]))
    {
      LaunchesNow(|deques|, history, s, |history|, D.Content(deques[0]), history + [LaunchWorkers]);
      inject := [];
      Follow(LaunchWorkers);
    }

    /**
     * Joining waits for all workers to leave their loops; it may have to wait for ever.  Only the contract is
     * meant; that the workers can leave is `WorkStealingProgress.DoneCanReturn`.
     */
    method Join() returns (joined: bool)
      requires Valid() && s.main == Joining
      modifies this
      ensures Valid() && s.main == Joining && |deques| == |old(deques)| && (joined ==> Enabled(s, JoinAll))
      ensures inject == old(inject) && old(history) <= history
    {
      joined := false;
    }

    /** Polls `pending_`, at most so many times, until it is zero. */
    method AwaitZero(polls: nat) returns (zero: bool)
      requires Valid() && s.main == Waiting
      modifies this
      ensures Valid() && |deques| == |old(deques)| && s.main == if zero then Stopping else Waiting
      ensures inject == old(inject) && old(history) <= history
      ensures !zero ==> Times(history, SeeTasksPending) == old(Times(history, SeeTasksPending)) + polls
      ensures old(pending) == 0 && polls >= 1 ==> zero
    {
      zero := false;
      var k := 0;
      while k < polls && !zero
        invariant Valid() && |deques| == |old(deques)| && s.main == if zero then Stopping else Waiting
        invariant inject == old(inject) && old(history) <= history && k <= polls
        invariant !zero ==> Times(history, SeeTasksPending) == old(Times(history, SeeTasksPending)) + k
        invariant if k == 0 then pending == old(pending) else old(pending) == 0 ==> zero
      {
        zero := Poll();
        k := k + 1;
      }
    }

    /** One load of `pending_` by `run`. */
    method Poll() returns (zero: bool)
      requires Valid() && s.main == Waiting
      modifies this
      ensures Valid() && |deques| == |old(deques)| && s.main == if zero then Stopping else Waiting
      ensures inject == old(inject) && old(history) <= history && zero == (old(pending) <= 0)
      ensures !zero ==> Times(history, SeeTasksPending) == old(Times(history, SeeTasksPending)) + 1
    {
      zero := pending <= 0;
      Follow(if zero then SeePendingZero else SeeTasksPending);
      ghost var run := history;
      Others(Main);
      TimesAfterOthers(Main, run, history, SeeTasksPending);
    }

    /** `workers_.clear()`: the deques are destroyed, and the scheduler is ready to be used again. */
    method Clear()
      requires Valid() && s.main.Returned?
      modifies this
      ensures Valid() && s.main.Building? && |deques| == |old(deques)|
      ensures history == old(history) + [ClearWorkers]
    {
      var n := |deques|;
      inject, deques := [], seq(n, _ => D.Init(n));
      Follow(ClearWorkers);
    }

    /** `run` up to the first poll: the injected tasks are in deque 0, and the workers run. */
    method PushAndLaunch()
      requires Valid() && s.main.Building?
      modifies this
      ensures Valid() && s.main == Waiting && |deques| == |old(deques)| && inject == []
      ensures PushedAll(|deques|, history, |old(history)|, old(inject))
      ensures LaunchedWith(|deques|, history, |old(history)|, old(inject))
      ensures old(history) <= history && (old(pending) == 0 ==> pending == 0)
    {
      DrainInjected();
      ghost var pushed := history;
      DrainAll();
      ghost var drained := history;
      Launch();
      PushedAllStays(|deques|, pushed, history, |old(history)|, old(inject));
      LaunchedEarlier(|deques|, history, |old(history)|, |drained|, old(inject));
    }

    /**
     * `run` has returned: every task ever submitted has been started once and finished once, and the deques it has
     * destroyed, as `last` shows them, were empty.
     */
    ghost predicate HasReturned(last: seq<D.State>)
      reads this
    {
      && s.main.Building? && |last| == |deques| && history != []
      && last == StateAfter(Init(|deques|), history[..|history| - 1]).deques
      && (forall v | 0 <= v < |last| :: D.Content(last[v]) == [])
      && AllRanOnce(Labels(Init(|deques|), history))
    }

    /**
     * Pushes the injected tasks on deque 0, in order, launches the workers and waits.  If `run` returns, every task
     * ever submitted has been started once and finished once, and the deques it destroyed, as `last` shows them,
     * were empty.  The scheduler can then be used again.
     */
    method Run(polls: nat) returns (returned: bool, ghost last: seq<D.State>)
      requires Valid() && s.main.Building?
      modifies this
      ensures Valid() && |deques| == |old(deques)| && old(history) <= history
      ensures PushedAll(|deques|, history, |old(history)|, old(inject))
      ensures LaunchedWith(|deques|, history, |old(history)|, old(inject))
      ensures !returned ==> Launched(s) && inject == [] && (s.main == Waiting || s.main == Joining)
      ensures !returned && s.main == Waiting ==> PolledInVain(history, |old(history)|, polls)
      ensures old(pending) == 0 && polls >= 1 ==> returned || s.main == Joining
      ensures returned ==> HasReturned(last)
    {
      PushAndLaunch();
      ghost var launched := history;
      returned, last := WaitAndStop(polls);
      PushedAllStays(|deques|, launched, history, |old(history)|, old(inject));
      LaunchedWithStays(|deques|, launched, history, |old(history)|, old(inject));
    }

    /** `run` from its first poll on. */
    method WaitAndStop(polls: nat) returns (returned: bool, ghost last: seq<D.State>)
      requires Valid() && s.main == Waiting && inject == []
      modifies this
      ensures Valid() && |deques| == |old(deques)| && old(history) <= history
      ensures !returned ==> Launched(s) && inject == [] && (s.main == Waiting || s.main == Joining)
      ensures !returned && s.main == Waiting ==> PolledInVain(history, |old(history)|, polls)
      ensures old(pending) == 0 && polls >= 1 ==> returned || s.main == Joining
      ensures returned ==> HasReturned(last)
    {
      var zero := AwaitZero(polls);
      if zero {
        returned, last := StopAndJoin();
      } else {
        returned, last := false, [];
        assert history[..|old(history)|] == old(history);
      }
    }

    /** `run` from the moment it has read zero. */
    method StopAndJoin() returns (returned: bool, ghost last: seq<D.State>)
      requires Valid() && s.main == Stopping && inject == []
      modifies this
      ensures Valid() && |deques| == |old(deques)| && old(history) <= history
      ensures !returned ==> s.main == Joining && inject == []
      ensures returned ==> HasReturned(last)
    {
      last := [];
      StopWorkers();
      returned := Join();
      if returned {
        last := ReturnAndClear();
      }
    }

    method StopWorkers()
      requires Valid() && s.main == Stopping
      modifies this
      ensures Valid() && s.main == Joining && |deques| == |old(deques)| && inject == old(inject)
      ensures old(history) + [StoreShutdown] <= history
    {
      shutdown := true;
      Follow(StoreShutdown);
      Others(Main);
    }

    /** All workers have been joined: `run` returns, clearing them. */
    method ReturnAndClear() returns (ghost last: seq<D.State>)
      requires Valid() && s.main == Joining && Enabled(s, JoinAll)
      modifies this
      ensures Valid() && |deques| == |old(deques)| && old(history) <= history
      ensures HasReturned(last)
    {
      Follow(JoinAll);
      last := deques;
      ReturnMeans(|deques|, history, s);
      ReachesStateAfter(Init(|deques|), history, s);
      ghost var run := history;
      Clear();
      assert history[..|history| - 1] == run;
      ClearingChangesNothing(|deques|, run, history);
    }
  }
}
