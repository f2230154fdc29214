/** What holds of the work-stealing scheduler in every run, for every worker count and every draw. */
module WorkStealingTheorems {
  import opened Wrappers
  import opened BagScheduler
  import opened BagTheorems
  import opened WorkStealingModel
  import C = WorkStealingCalls
  import opened WorkStealingInvariant
  import opened WorkStealingSteps
  import D = DequeModel
  import I = DequeInvariant

  function Labels(s: Ws, steps: seq<WsStep>): seq<Label>
    decreases |steps|
  {
    if steps == [] || !Enabled(s, steps[0]) then []
    else [LabelOf(s, steps[0])] + Labels(Do(s, steps[0]), steps[1..])
  }

  /** Any run keeps the invariant, and its labels are a run of the bag. */
  lemma {:induction false} RunRefinesBagFrom(s: Ws, steps: seq<WsStep>, s': Ws)
    requires Inv(s) && Reaches(s, steps, s')
    ensures Inv(s')
    ensures BagRun(s.bag, Labels(s, steps), s'.bag)
    decreases |steps|
  {
    if steps != [] {
      StepKeepsInv(s, steps[0]);
      StepAllowed(s, steps[0]);
      RunRefinesBagFrom(Do(s, steps[0]), steps[1..], s');
      assert Labels(s, steps)[1..] == Labels(Do(s, steps[0]), steps[1..]);
    }
  }

  lemma ReachableHasInv(n: nat, steps: seq<WsStep>, s: Ws)
    requires n >= 1 && Reaches(Init(n), steps, s)
    ensures Inv(s) && BagRun(EMPTY_BAG, Labels(Init(n), steps), s.bag)
  {
    InitHasInv(n);
    RunRefinesBagFrom(Init(n), steps, s);
  }

  /** Some run of `n` workers leads here. */
  ghost predicate Reachable(n: nat, s: Ws) {
    n >= 1 && exists steps :: Reaches(Init(n), steps, s)
  }

  /** A run may go on by any step that is enabled. */
  lemma {:induction false} RunGoesOn(s: Ws, steps: seq<WsStep>, m: Ws, step: WsStep)
    requires Reaches(s, steps, m) && Enabled(m, step)
    ensures Reaches(s, steps + [step], Do(m, step))
    decreases |steps|
  {
    if steps == [] {
      assert [step][1..] == [];
      assert steps + [step] == [step];
    } else {
      RunGoesOn(Do(s, steps[0]), steps[1..], m, step);
      assert (steps + [step])[1..] == steps[1..] + [step];
    }
  }

  lemma ReachableGoesOn(n: nat, s: Ws, step: WsStep)
    requires Reachable(n, s) && Enabled(s, step)
    ensures Reachable(n, Do(s, step)) && BagNext(s.bag, LabelOf(s, step), Do(s, step).bag)
  {
    var steps :| Reaches(Init(n), steps, s);
    RunGoesOn(Init(n), steps, s, step);
    ReachableHasInv(n, steps, s);
    StepAllowed(s, step);
  }

  lemma ReachableMeansInv(n: nat, s: Ws)
    requires Reachable(n, s)
    ensures Inv(s) && |s.workers| == |s.deques| == n
  {
    var steps :| Reaches(Init(n), steps, s);
    ReachableHasInv(n, steps, s);
    SizesStay(Init(n), steps, s);
  }

  /** The scheduler refines the bag: whatever it does in any run, the bag allows. */
  lemma RunRefinesBag(n: nat, steps: seq<WsStep>, s: Ws)
    requires n >= 1 && Reaches(Init(n), steps, s)
    ensures BagRun(EMPTY_BAG, Labels(Init(n), steps), s.bag)
  {
    ReachableHasInv(n, steps, s);
  }

  /**
   * When `run` returns, every task submitted before it or spawned by a task has run exactly once, and
   * every deque is empty: destroying the workers destroys no task, `[top_, bot_)` being empty in memory.
   */
  lemma RunReturnsWhenAllIsDone(n: nat, steps: seq<WsStep>, s: Ws, t: Task)
    requires n >= 1 && Reaches(Init(n), steps, s) && s.main.Returned?
    ensures Starts(Labels(Init(n), steps), t) == Finishes(Labels(Init(n), steps), t)
         == Submissions(Labels(Init(n), steps), t) <= 1
    ensures forall v | 0 <= v < |s.deques| :: D.Content(s.deques[v]) == [] && s.deques[v].mem.bot <= s.deques[v].top
  {
    ReachableHasInv(n, steps, s);
    ReturnedMeansAllRanOnce(Labels(Init(n), steps), s.bag, t);
    forall v | 0 <= v < |s.deques|
      ensures D.Content(s.deques[v]) == [] && s.deques[v].mem.bot <= s.deques[v].top
    {
      QuiescentDequeIsEmpty(s, v);
    }
  }

  lemma QuiescentDequeIsEmpty(s: Ws, v: nat)
    requires Inv(s) && s.main.Returned? && v < |s.deques|
    ensures D.Content(s.deques[v]) == [] && s.deques[v].mem.bot <= s.deques[v].top
  {
    var d := s.deques[v];
    var c := D.Content(d);
    if c != [] {
      assert c[0] in multiset(c);
      assert c[0] in Owed(d);
      OwedIsQueued(s, v, c[0]);
    }
    assert OwnerMatches(s, v);
    RestingDequeInMemory(d);
  }

  /** Between calls and with its stores drained, a deque's memory shows just its content. */
  lemma RestingDequeInMemory(d: D.State)
    requires I.Inv(d) && d.buf == [] && d.owner.Idle?
    ensures d.mem.bot == |d.log| == d.top + |D.Content(d)|
  {
    I.OneVersion(d.mem);
  }

  /** `pending_` is exact: it counts the injected, pushed, popped, stolen, running and half-submitted tasks. */
  lemma PendingIsExact(n: nat, steps: seq<WsStep>, s: Ws)
    requires n >= 1 && Reaches(Init(n), steps, s)
    ensures |s.workers| == |s.deques| == n
    ensures s.pending == |Injected(s)| + |Multisets.Sum(Loads(s))| + |Multisets.Sum(Hands(s))| >= 0
  {
    ReachableHasInv(n, steps, s);
    SizesStay(Init(n), steps, s);
    assert |multiset(s.bag.queued)| == |s.bag.queued|;
    assert |multiset(s.bag.running)| == |s.bag.running|;
  }

  lemma {:induction false} SizesStay(s: Ws, steps: seq<WsStep>, s': Ws)
    requires Reaches(s, steps, s')
    ensures |s'.workers| == |s.workers| && |s'.deques| == |s.deques|
    decreases |steps|
  {
    if steps != [] {
      StepKeepsSizes(s, steps[0]);
      SizesStay(Do(s, steps[0]), steps[1..], s');
    }
  }

  lemma StepKeepsSizes(s: Ws, step: WsStep)
    requires Enabled(s, step)
    ensures |Do(s, step).workers| == |s.workers| && |Do(s, step).deques| == |s.deques|
  {
  }

  lemma {:induction false} RunKeepsZero(s: Ws, steps: seq<WsStep>, s': Ws)
    requires Inv(s) && s.bag.launched && s.pending == 0 && Reaches(s, steps, s') && ClearWorkers !in steps
    ensures s'.pending == 0
    decreases |steps|
  {
    if steps != [] {
      assert steps[0] in steps && forall step | step in steps[1..] :: step in steps;
      PendingZeroMeansQuiescent(s);
      ZeroStaysZero(s, steps[0]);
      StepKeepsInv(s, steps[0]);
      RunKeepsZero(Do(s, steps[0]), steps[1..], s');
    }
  }

  /** Quiescence is stable: once `run` was called and `pending_` is zero, it stays zero until `run` has returned. */
  lemma QuiescenceIsStable(n: nat, before: seq<WsStep>, s: Ws, steps: seq<WsStep>, s': Ws)
    requires n >= 1 && Reaches(Init(n), before, s) && !s.main.Building? && s.pending == 0
    requires Reaches(s, steps, s') && ClearWorkers !in steps
    ensures s'.pending == 0
  {
    ReachableHasInv(n, before, s);
    RunKeepsZero(s, steps, s');
  }

  lemma ZeroStaysZero(s: Ws, step: WsStep)
    requires |s.workers| == |s.deques| && TasksOk(s)
    requires s.bag.launched && s.bag.launched == !s.main.Building? && Quiescent(s) && s.pending == 0 && Enabled(s, step)
    requires step != ClearWorkers
    ensures Do(s, step).pending == 0 && Do(s, step).bag.launched
  {
    if step.SubmitChild? || step.FinishTask? {
      InHandIsRunning(s, step.w);
      assert false;
    } else {
      PendingStays(s, step);
    }
  }

  lemma PendingStays(s: Ws, step: WsStep)
    requires Enabled(s, step) && !step.SubmitExternal? && !step.SubmitChild? && !step.FinishTask? && !step.ClearWorkers?
    ensures Do(s, step).pending == s.pending && (s.bag.launched ==> Do(s, step).bag.launched)
  {
  }

  /** No worker leaves its loop, and `run` does not stop waiting, while `pending_` is positive. */
  lemma NobodyLeavesEarly(n: nat, steps: seq<WsStep>, s: Ws)
    requires n >= 1 && Reaches(Init(n), steps, s) && s.pending > 0
    ensures forall w | 0 <= w < |s.workers| :: !s.workers[w].Exited?
    ensures !s.main.Stopping? && !s.main.Joining? && !s.main.Returned?
    ensures Launched(s) ==> !s.shutdown
  {
    ReachableHasInv(n, steps, s);
  }

  // ---------------------------------------------------------------- who calls which deque

  /**
   * Owner discipline: deque `v` is inside a push or pop only while worker `v` is in its own pop or submit
   * (or, before the launch, while `run` fills deque 0), and its worker never steals from it.
   */
  lemma OwnerDiscipline(n: nat, steps: seq<WsStep>, s: Ws, v: nat)
    requires n >= 1 && Reaches(Init(n), steps, s) && v < |s.deques|
    ensures v < |s.workers| && v < |s.deques[v].thieves|
    ensures !s.deques[v].owner.Idle? ==>
      if Launched(s) then s.workers[v].Popping? || s.workers[v].Submitting? else v == 0 && s.main.Draining?
    ensures s.deques[v].thieves[v].Out?
  {
    ReachableHasInv(n, steps, s);
    assert OwnerMatches(s, v) && ThiefMatches(s, v, v) && SweepOk(s.workers[v], v, |s.workers|);
    IdleIsNoCall(s.deques[v]);
  }

  // ---------------------------------------------------------------- what a worker finds

  /** Outside its own calls a worker's deque is between calls, and inside a pop it is in a call. */
  lemma BetweenCalls(n: nat, s: Ws, w: nat)
    requires Reachable(n, s) && Worker(s, w)
    ensures s.workers[w].AtTop? || s.workers[w].Running? ==> s.deques[w].owner.Idle?
    ensures s.workers[w].Popping? ==> !s.deques[w].owner.Idle?
  {
    ReachableMeansInv(n, s);
    assert OwnerMatches(s, w);
    IdleIsNoCall(s.deques[w]);
  }

  lemma OwnersHoldTasks(n: nat, s: Ws, w: nat)
    requires Reachable(n, s) && w < |s.deques|
    ensures C.HoldsTask(s.deques[w])
  {
    ReachableMeansInv(n, s);
    DequeHoldsTask(s.deques[w]);
  }

  lemma DequeHoldsTask(d: D.State)
    requires I.Inv(d)
    ensures C.HoldsTask(d)
  {
  }

  /** A sweeping worker aims at another worker's deque, and is not inside it yet. */
  lemma AimsAtOther(n: nat, s: Ws, w: nat)
    requires Reachable(n, s) && Worker(s, w) && s.workers[w].Sweeping?
    ensures
      var v := VictimOf(s, w);
      v < |s.deques| && v != w && w < |s.deques[v].thieves| && s.deques[v].thieves[w].Out?
  {
    ReachableMeansInv(n, s);
    assert SweepOk(s.workers[w], w, |s.workers|);
    VictimIsNotSelf(w, |s.workers|, s.workers[w].start, s.workers[w].attempt);
    assert ThiefMatches(s, VictimOf(s, w), w);
  }

  /** A stealing worker is inside another worker's deque. */
  lemma StealsFromOther(n: nat, s: Ws, w: nat)
    requires Reachable(n, s) && Worker(s, w) && s.workers[w].Stealing?
    ensures
      var v := VictimOf(s, w);
      v < |s.deques| && v != w && w < |s.deques[v].thieves| && !s.deques[v].thieves[w].Out?
  {
    ReachableMeansInv(n, s);
    assert SweepOk(s.workers[w], w, |s.workers|);
    VictimIsNotSelf(w, |s.workers|, s.workers[w].start, s.workers[w].attempt);
    assert ThiefMatches(s, VictimOf(s, w), w);
  }

  /** A worker has left its loop only when no work remains. */
  lemma LeavingMeansDone(n: nat, s: Ws, w: nat)
    requires Reachable(n, s) && Worker(s, w) && s.workers[w].Exited?
    ensures Quiescent(s) && s.pending == 0
  {
    ReachableMeansInv(n, s);
  }

  /** Whoever counts a task as done leaves at once if and only if it was the last one anywhere. */
  lemma LastToFinishLeaves(n: nat, s: Ws, w: nat)
    requires Reachable(n, s) && Enabled(s, FinishTask(w))
    ensures w < |Do(s, FinishTask(w)).workers|
    ensures Do(s, FinishTask(w)).workers[w].Exited? <==> Quiescent(Do(s, FinishTask(w)))
    ensures Quiescent(Do(s, FinishTask(w))) <==> s.bag.queued == {} && s.bag.running == {s.workers[w].t}
    ensures s.pending == 1 <==> Quiescent(Do(s, FinishTask(w)))
  {
    FinishDoes(s, w);
    PendingCounts(n, s, w);
    OneOfAll(s.bag.queued, s.bag.running, s.workers[w].t);
  }

  lemma FinishDoes(s: Ws, w: nat)
    requires Enabled(s, FinishTask(w))
    ensures
      var s', t := Do(s, FinishTask(w)), s.workers[w].t;
      && s'.workers == s.workers[w := if s.pending == 1 then Exited else AtTop] && t in s'.bag.done
      && s'.bag.queued == s.bag.queued && s'.bag.running == s.bag.running - {t}
  {
  }

  lemma PendingCounts(n: nat, s: Ws, w: nat)
    requires Reachable(n, s) && Worker(s, w) && s.workers[w].Running?
    ensures s.pending == |s.bag.queued| + |s.bag.running| && s.workers[w].t in s.bag.running
  {
    ReachableMeansInv(n, s);
    InHandIsRunning(s, w);
  }

  lemma OneOfAll(queued: set<Task>, running: set<Task>, t: Task)
    requires t in running
    ensures |queued| + |running| == 1 <==> queued == {} && running == {t}
    ensures running - {t} == {} <==> running == {t}
  {
    assert running == (running - {t}) + {t};
  }

  // ---------------------------------------------------------------- the victim sweep

  /** The victims of an unsuccessful sweep, in order. */
  function Victims(id: nat, n: nat, start: nat, attempts: nat): seq<nat>
    requires n > 0
  {
    if attempts == 0 then [] else Victims(id, n, start, attempts - 1) + [Victim(id, n, start, attempts - 1)]
  }

  lemma VictimsGrow(id: nat, n: nat, start: nat, tried: seq<nat>)
    requires n > 0 && tried == Victims(id, n, start, |tried|)
    ensures tried + [Victim(id, n, start, |tried|)] == Victims(id, n, start, |tried| + 1)
  {
  }

  lemma {:induction false} VictimsAt(id: nat, n: nat, start: nat, attempts: nat, a: nat)
    requires n > 0 && a < attempts
    ensures |Victims(id, n, start, attempts)| == attempts
    ensures Victims(id, n, start, attempts)[a] == Victim(id, n, start, a)
  {
    VictimsLength(id, n, start, attempts - 1);
    if a < attempts - 1 {
      VictimsAt(id, n, start, attempts - 1, a);
    }
  }

  lemma {:induction false} VictimsLength(id: nat, n: nat, start: nat, attempts: nat)
    requires n > 0
    ensures |Victims(id, n, start, attempts)| == attempts
  {
    if attempts > 0 {
      VictimsLength(id, n, start, attempts - 1);
    }
  }

  /** The one worker no attempt lands on directly. */
  function LeftOut(n: nat, start: nat): nat
    requires start < n
  {
    if start == 0 then n - 1 else start - 1
  }

  /** The attempt that lands on `v`, for any `v` but the one left out. */
  lemma LandsOn(n: nat, start: nat, v: nat) returns (a: nat)
    requires start < n && v < n && v != LeftOut(n, start)
    ensures a < n - 1 && (start + a) % n == v
  {
    a := if v >= start then v - start else v + n - start;
    if v < start {
      Wraps(v, n);
    }
  }

  lemma Wraps(v: nat, n: nat)
    requires v < n
    ensures (v + n) % n == v
  {
    assert (v + n) - n * 1 == v;
  }

  lemma NeverLandsOnLeftOut(n: nat, start: nat, a: nat)
    requires start < n && a < n - 1
    ensures (start + a) % n != LeftOut(n, start)
  {
    if start + a >= n {
      Wraps(start + a - n, n);
    }
  }

  /**
   * A sweep of `n - 1` attempts that finds nothing has tried every other worker, except perhaps the one
   * before `start`; that one is missed exactly when `start` is neither the next worker nor the one after.
   */
  lemma SweepCovers(id: nat, n: nat, start: nat, v: nat)
    requires n >= 2 && id < n && start < n && start != id && v < n && v != id
    ensures v in Victims(id, n, start, n - 1) <==>
      v != LeftOut(n, start) || start == (id + 1) % n || start == (id + 2) % n
  {
    var vs := Victims(id, n, start, n - 1);
    var m := LeftOut(n, start);
    if v != m {
      var a := LandsOn(n, start, v);
      VictimsAt(id, n, start, n - 1, a);
      assert vs[a] == v;
    } else if start == (id + 2) % n {
      NextNumbers(id, n);
      SmallOrWrapped(id, n);
      var a := LandsOn(n, start, id);
      VictimsAt(id, n, start, n - 1, a);
      assert vs[a] == v;
    } else {
      SmallOrWrapped(id, n);
      NextNumbers(id, n);
      forall a | 0 <= a < n - 1
        ensures Victim(id, n, start, a) != m
      {
        NeverLandsOnLeftOut(n, start, a);
      }
      forall a | 0 <= a < |vs|
        ensures vs[a] != m
      {
        VictimsLength(id, n, start, n - 1);
        VictimsAt(id, n, start, n - 1, a);
      }
    }
  }

  lemma SmallOrWrapped(id: nat, n: nat)
    requires n >= 2 && id < n
    ensures (id + 1) % n == if id + 1 < n then id + 1 else 0
  {
    if id + 1 < n {
      SmallModulo(id + 1, n);
    } else {
      Wraps(0, n);
    }
  }

  lemma NextNumbers(id: nat, n: nat)
    requires n >= 2 && id < n
    ensures (id + 2) % n == if id + 2 < n then id + 2 else id + 2 - n
  {
    if id + 2 < n {
      SmallModulo(id + 2, n);
    } else {
      Wraps(id + 2 - n, n);
    }
  }

  /** Every other worker is the first victim for some draw of the generator. */
  lemma AnyoneCanBeFirst(id: nat, n: nat, v: nat) returns (r: nat)
    requires n >= 2 && id < n && v < n && v != id
    ensures r < n - 1 && StartVictim(id, n, r) == v && Victim(id, n, StartVictim(id, n, r), 0) == v
  {
    r := if v > id then v - 1 else v;
    SmallModulo(r, n - 1);
    SmallModulo(v, n);
  }

  /** Which draws pick which first victim: the other workers in order, one for each remainder. */
  lemma DrawPicks(id: nat, n: nat, r: nat, v: nat)
    requires n >= 2 && id < n && v < n && v != id
    ensures StartVictim(id, n, r) == v <==> r % (n - 1) == if v > id then v - 1 else v
  {
  }
}
