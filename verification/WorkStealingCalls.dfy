/** Calls on a deque made step by step: the next access of a call in progress, and how far it still has to go. */
module WorkStealingCalls {
  import opened Wrappers
  import opened WorkStealingModel
  import D = DequeModel
  import R = DequeRefinement

  /** The next step of the owner's call, which waits at its fence and at its CAS for the buffer to drain. */
  function NextOwnerStep(d: D.State): D.Step
    requires !d.owner.Idle?
  {
    match d.owner
    case PushGotBot(_, _) => D.PushLoadTop
    case PushGotTop(_, _, _) => D.PushLoadArray
    case GrowCopy(_, b, _, _, _, i) => if i < b then D.GrowPut else D.GrowInstall
    case PushPut(_, _, _) => D.PushStoreSlot
    case PushPublish(_, _, _) => D.PushStoreBot
    case PopGotBot(_) => D.PopLoadArray
    case PopGotArray(_, _) => D.PopStoreBot
    case PopStored(_, _) => if d.buf == [] then D.PopLoadTop else D.Drain
    case PopTake(_, _, _) => D.PopReadTaken
    case PopRace(_, _) => D.PopReadRaced
    case PopCas(_, _) => if d.buf == [] then D.PopRaceCas else D.Drain
    case PopRestore(_, _) => D.PopRestoreBot
  }

  /** How far the owner's call still has to go. */
  function OwnerPhase(pc: D.OwnerPc): nat {
    match pc
    case Idle => 0
    case PushPublish(_, _, _) => 1
    case PushPut(_, _, _) => 2
    case GrowCopy(_, _, _, _, _, _) => 3
    case PushGotTop(_, _, _) => 4
    case PushGotBot(_, _) => 5
    case PopRestore(_, _) => 1
    case PopTake(_, _, _) => 1
    case PopCas(_, _) => 2
    case PopRace(_, _) => 3
    case PopStored(_, _) => 4
    case PopGotArray(_, _) => 5
    case PopGotBot(_) => 6
  }

  function LeftToCopy(pc: D.OwnerPc): nat {
    if pc.GrowCopy? && pc.i < pc.b then pc.b - pc.i else 0
  }

  lemma OwnerStepAdvances(d: D.State)
    requires !d.owner.Idle?
    ensures
      var st := NextOwnerStep(d);
      D.Enabled(d, st) && (st.Drain? || IsOwnerStep(st)) && OwnerCloser(d, D.Do(d, st))
  {
  }

  function NextThiefStep(pc: D.ThiefPc, w: nat): D.Step
    requires !pc.Out?
  {
    match pc
    case GotTop(_) => D.ThiefLoadBot(w)
    case GotBot(_) => D.ThiefLoadArray(w)
    case GotArray(_, _) => D.ThiefLoadSlot(w)
    case GotSlot(_, _) => D.ThiefCas(w)
  }

  function ThiefPhase(pc: D.ThiefPc): nat {
    match pc
    case Out => 0
    case GotSlot(_, _) => 1
    case GotArray(_, _) => 2
    case GotBot(_) => 3
    case GotTop(_) => 4
  }

  /** What the next step steals, if it steals. */
  function StolenNext(d: D.State, w: nat): Option<Task>
    requires w < |d.thieves|
  {
    var thief := d.thieves[w];
    if thief.GotSlot? && d.top == thief.t then thief.raw else None
  }

  lemma ThiefStepAdvances(d: D.State, w: nat, pc: WorkerPc)
    requires w < |d.thieves| && !d.thieves[w].Out? && pc.Stealing?
    ensures
      var st, r := NextThiefStep(d.thieves[w], w), StolenNext(d, w);
      && D.Enabled(d, st) && IsThiefStep(st) && st.i == w && !st.ThiefLoadTop?
      && var d' := D.Do(d, st);
         && |d'.thieves| == |d.thieves| && ThiefPhase(d'.thieves[w]) < ThiefPhase(d.thieves[w])
         && AfterThiefStep(pc, d, st, d') ==
              if !d'.thieves[w].Out? then pc
              else if r.Some? then Running(r.value) else Sweeping(pc.start, pc.attempt + 1)
  {
  }

  /** A step of a push: it stays that push until its last step, which appends the task. */
  lemma PushStepAdvances(d: D.State, x: Task)
    requires R.OwnerCall(d.owner) == R.Pushing(x) && 0 <= d.top <= |d.log|
    ensures
      var st := NextOwnerStep(d);
      var d' := D.Do(d, st);
      && IsOwnerStep(st) && d'.top == d.top <= |d'.log|
      && (st.PushStoreBot? <==> d'.owner.Idle?)
      && (!d'.owner.Idle? ==> R.OwnerCall(d'.owner) == R.Pushing(x))
      && D.Content(d') == D.Content(d) + if d'.owner.Idle? then [x] else []
  {
    OwnerStepAdvances(d);
  }

  /** An owner's call has come closer to its end. */
  predicate OwnerCloser(d: D.State, d': D.State) {
    || OwnerPhase(d'.owner) < OwnerPhase(d.owner)
    || (d'.owner.GrowCopy? && d.owner.GrowCopy? && LeftToCopy(d'.owner) < LeftToCopy(d.owner))
    || (d'.owner == d.owner && |d'.buf| < |d.buf|)
  }

  /** The scheduler's step for the next step of the owner's call. */
  function OwnerMove(s: Ws, v: nat): WsStep
    requires v < |s.deques| && !s.deques[v].owner.Idle?
  {
    var st := NextOwnerStep(s.deques[v]);
    if st.Drain? then DrainBuffer(v) else OwnerStep(v, st)
  }

  // ---------------------------------------------------------------- what a step does to a deque

  function StateAfter(s: Ws, steps: seq<WsStep>): Ws
    decreases |steps|
  {
    if steps == [] || !Enabled(s, steps[0]) then s else StateAfter(Do(s, steps[0]), steps[1..])
  }

  lemma {:induction false} ReachesStateAfter(s: Ws, steps: seq<WsStep>, s': Ws)
    requires Reaches(s, steps, s')
    ensures StateAfter(s, steps) == s'
    decreases |steps|
  {
    if steps != [] {
      ReachesStateAfter(Do(s, steps[0]), steps[1..], s');
    }
  }

  /** The step of the scheduler is event `e` of the atomic sequence that is the deque of worker `v`. */
  predicate IsEvent(s: Ws, step: WsStep, v: nat, e: R.Event) {
    && Enabled(s, step)
    && match step
       case OwnerStep(w, st) => v == w && R.EventOf(s.deques[w], st) == e
       case MainOwnerStep(st) => v == 0 && R.EventOf(s.deques[0], st) == e
       case ThiefStep(w, st) => v == VictimOf(s, w) && R.EventOf(s.deques[v], st) == e
       case _ => false
  }

  /** From step `since` of the run on, event `e` has happened to the deque of `v`. */
  ghost predicate Happened(n: nat, run: seq<WsStep>, since: nat, v: nat, e: R.Event) {
    exists k :: since <= k < |run| && IsEvent(StateAfter(Init(n), run[..k]), run[k], v, e)
  }

  lemma HappensNow(n: nat, run: seq<WsStep>, s: Ws, step: WsStep, since: nat, v: nat, e: R.Event)
    requires Reaches(Init(n), run, s) && IsEvent(s, step, v, e) && since <= |run|
    ensures Happened(n, run + [step], since, v, e)
  {
    ReachesStateAfter(Init(n), run, s);
    assert (run + [step])[..|run|] == run && (run + [step])[|run|] == step;
  }

  lemma HappenedStays(n: nat, run: seq<WsStep>, run': seq<WsStep>, since: nat, v: nat, e: R.Event)
    requires Happened(n, run, since, v, e) && run <= run'
    ensures Happened(n, run', since, v, e)
  {
    var k :| since <= k < |run| && IsEvent(StateAfter(Init(n), run[..k]), run[k], v, e);
    assert run'[..k] == run[..k] && run'[k] == run[k];
  }

  /** What a pop did when it was decided. */
  function PopEvent(r: Option<Task>): R.Event {
    if r.Some? then R.TookLast(r) else R.FoundEmpty
  }

  /** A pop that has claimed reads just the task it claimed; one that is about to win the race holds a task. */
  predicate HoldsTask(d: D.State) {
    && (d.owner.PopTake? ==> D.At(D.View(d), d.owner.a, d.owner.b) == Some(d.owner.claim))
    && (d.owner.PopCas? && d.top == d.owner.b ==> d.owner.raw.Some?)
  }

  /** The call of the owner and the events of its steps: decided once, returned as decided. */
  lemma OwnerStepTells(d: D.State)
    requires !d.owner.Idle? && HoldsTask(d)
    ensures
      var st := NextOwnerStep(d);
      && D.Enabled(d, st)
      && var call, call' := R.OwnerCall(d.owner), R.OwnerCall(D.Do(d, st).owner);
         && (call.Popping? ==> call'.Popping? || (call'.Popped? && !st.Drain? && R.EventOf(d, st) == PopEvent(call'.r)))
         && (call.Popped? ==> call'.NoCall? && PopResult(d, st) == call.r)
         && (call.Pushing? ==> call' == call || (call'.NoCall? && !st.Drain? && R.EventOf(d, st) == R.Pushed(call.x)))
  {
    OwnerStepAdvances(d);
  }

  // ---------------------------------------------------------------- a call and its events

  /** What must have happened since step `since`, given where the pop on the deque `d` of `w` is by now. */
  ghost predicate PopSoFar(n: nat, run: seq<WsStep>, since: nat, w: nat, d: D.State, r: Option<Task>) {
    match R.OwnerCall(d.owner)
    case Popping => true
    case Popped(decided) => Happened(n, run, since, w, PopEvent(decided))
    case NoCall => Happened(n, run, since, w, PopEvent(r))
    case Pushing(_) => false
  }

  lemma PopStepSoFar(n: nat, run: seq<WsStep>, s: Ws, since: nat, w: nat, r: Option<Task>)
    requires Reaches(Init(n), run, s) && since <= |run| && w < |s.deques|
    requires !s.deques[w].owner.Idle? && HoldsTask(s.deques[w]) && Enabled(s, OwnerMove(s, w))
    requires PopSoFar(n, run, since, w, s.deques[w], r)
    ensures
      var d, st := s.deques[w], NextOwnerStep(s.deques[w]);
      D.Enabled(d, st) && PopSoFar(n, run + [OwnerMove(s, w)], since, w, D.Do(d, st), PopResult(d, st))
  {
    var d := s.deques[w];
    var st, call := NextOwnerStep(d), R.OwnerCall(d.owner);
    OwnerStepTells(d);
    var call' := R.OwnerCall(D.Do(d, st).owner);
    if call.Popping? && call'.Popped? {
      HappensNow(n, run, s, OwnerMove(s, w), since, w, PopEvent(call'.r));
    } else if call.Popped? {
      HappenedStays(n, run, run + [OwnerMove(s, w)], since, w, PopEvent(call.r));
    }
  }

  lemma PopSoFarStays(n: nat, run: seq<WsStep>, run': seq<WsStep>, since: nat, w: nat, d: D.State, d': D.State,
                      r: Option<Task>)
    requires PopSoFar(n, run, since, w, d, r) && run <= run' && d'.owner == d.owner
    ensures PopSoFar(n, run', since, w, d', r)
  {
    match R.OwnerCall(d.owner)
    case Popped(decided) => HappenedStays(n, run, run', since, w, PopEvent(decided));
    case NoCall => HappenedStays(n, run, run', since, w, PopEvent(r));
    case _ =>
  }

  /** The same for a push of `x`. */
  ghost predicate PushSoFar(n: nat, run: seq<WsStep>, since: nat, w: nat, d: D.State, x: Task) {
    match R.OwnerCall(d.owner)
    case Pushing(y) => y == x
    case NoCall => Happened(n, run, since, w, R.Pushed(x))
    case _ => false
  }

  lemma PushStepSoFar(n: nat, run: seq<WsStep>, s: Ws, since: nat, w: nat, x: Task)
    requires Reaches(Init(n), run, s) && since <= |run| && w < |s.deques|
    requires !s.deques[w].owner.Idle? && HoldsTask(s.deques[w]) && Enabled(s, OwnerMove(s, w))
    requires PushSoFar(n, run, since, w, s.deques[w], x)
    ensures
      var d, st := s.deques[w], NextOwnerStep(s.deques[w]);
      D.Enabled(d, st) && PushSoFar(n, run + [OwnerMove(s, w)], since, w, D.Do(d, st), x)
  {
    var d := s.deques[w];
    OwnerStepTells(d);
    if R.OwnerCall(D.Do(d, NextOwnerStep(d)).owner).NoCall? {
      HappensNow(n, run, s, OwnerMove(s, w), since, w, R.Pushed(x));
    }
  }

  lemma PushSoFarStays(n: nat, run: seq<WsStep>, run': seq<WsStep>, since: nat, w: nat, d: D.State, d': D.State,
                       x: Task)
    requires PushSoFar(n, run, since, w, d, x) && run <= run' && d'.owner == d.owner
    ensures PushSoFar(n, run', since, w, d', x)
  {
    if R.OwnerCall(d.owner).NoCall? {
      HappenedStays(n, run, run', since, w, R.Pushed(x));
    }
  }
}
