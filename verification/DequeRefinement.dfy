/** The deque refines an atomic sequence: each call takes effect at one step between its call and its return. */
module DequeRefinement {
  import opened Wrappers
  import opened CircularArrays
  import opened DequeModel
  import opened DequeInvariant
  import opened DequeSteps
  import opened DequeTheorems

  /** A call of the owner on the atomic sequence: pending, or done with the result it still has to return. */
  datatype AtomicCall = NoCall | Pushing(x: Task) | Popping | Popped(r: Slot)

  /** `overtaken` are the stealing thieves since whose call somebody else has removed the oldest task. */
  datatype Atomic = Atomic(content: seq<Task>, owner: AtomicCall, stealing: set<nat>, overtaken: set<nat>)

  const EMPTY_DEQUE := Atomic([], NoCall, {}, {})

  datatype Event =
    | Internal
    | PushCalled(x: Task) | Pushed(x: Task)
    | PopCalled | TookLast(r: Slot) | FoundEmpty | PopReturned(r: Slot)
    | StealCalled(i: nat) | StoleFirst(i: nat, r: Slot) | SawEmpty(i: nat) | LostRace(i: nat)

  /**
   * The atomic sequence: pushes append, pops take the last task, steals the first, all indivisibly.
   * A pop finds nothing only if nothing is there; a steal loses only to another removal of the oldest task.
   */
  ghost predicate AtomicNext(q: Atomic, e: Event, q': Atomic) {
    match e
    case Internal => q' == q
    case PushCalled(x) => q.owner.NoCall? && q' == q.(owner := Pushing(x))
    case Pushed(x) => q.owner == Pushing(x) && q' == q.(content := q.content + [x], owner := NoCall)
    case PopCalled => q.owner.NoCall? && q' == q.(owner := Popping)
    case TookLast(r) =>
      && q.owner.Popping? && q.content != [] && r == Some(Last(q.content))
      && q' == q.(content := q.content[..|q.content| - 1], owner := Popped(r),
                  overtaken := if |q.content| == 1 then q.stealing else q.overtaken)
    case FoundEmpty => q.owner.Popping? && q.content == [] && q' == q.(owner := Popped(None))
    case PopReturned(r) => q.owner == Popped(r) && q' == q.(owner := NoCall)
    case StealCalled(i) => i !in q.stealing && q' == q.(stealing := q.stealing + {i})
    case StoleFirst(i, r) =>
      && i in q.stealing && q.content != [] && r == Some(q.content[0])
      && q' == q.(content := q.content[1..], stealing := q.stealing - {i}, overtaken := q.stealing - {i})
    case SawEmpty(i) => i in q.stealing && q' == StealOver(q, i)
    case LostRace(i) => i in q.stealing && i in q.overtaken && q' == StealOver(q, i)
  }

  function StealOver(q: Atomic, i: nat): Atomic {
    q.(stealing := q.stealing - {i}, overtaken := q.overtaken - {i})
  }

  function OwnerCall(pc: OwnerPc): AtomicCall {
    match pc
    case Idle => NoCall
    case PushGotBot(x, _) => Pushing(x)
    case PushGotTop(x, _, _) => Pushing(x)
    case GrowCopy(x, _, _, _, _, _) => Pushing(x)
    case PushPut(x, _, _) => Pushing(x)
    case PushPublish(x, _, _) => Pushing(x)
    case PopTake(_, _, claim) => Popped(Some(claim))
    case PopRestore(_, r) => Popped(r)
    case _ => Popping
  }

  function Stealing(thieves: seq<ThiefPc>): set<nat> {
    set i | 0 <= i < |thieves| && !thieves[i].Out?
  }

  /** The thieves aiming at an index that is already taken. */
  function Overtaken(thieves: seq<ThiefPc>, top: int): set<nat> {
    set i | 0 <= i < |thieves| && !thieves[i].Out? && thieves[i].t < top
  }

  function Abstract(s: State): Atomic {
    Atomic(Content(s), OwnerCall(s.owner), Stealing(s.thieves), Overtaken(s.thieves, s.top))
  }

  /** What a step of the code means for the atomic sequence; the values are those the code holds. */
  function EventOf(s: State, step: Step): Event
    requires Enabled(s, step)
  {
    match step
    case PushLoadBot(x) => PushCalled(x)
    case PushStoreBot => Pushed(s.owner.x)
    case PopLoadBot => PopCalled
    case PopLoadTop =>
      var s' := Do(s, PopLoadTop);
      if s'.owner.PopTake? then TookLast(Some(s'.owner.claim))
      else if s'.owner.PopRestore? then FoundEmpty
      else Internal
    case PopRaceCas => if s.top == s.owner.b then TookLast(s.owner.raw) else FoundEmpty
    case PopReadTaken => PopReturned(At(View(s), s.owner.a, s.owner.b))
    case PopRestoreBot => PopReturned(s.owner.r)
    case ThiefLoadTop(i) => StealCalled(i)
    case ThiefLoadBot(i) => if s.thieves[i].t >= s.mem.bot then SawEmpty(i) else Internal
    case ThiefCas(i) => if s.top == s.thieves[i].t then StoleFirst(i, s.thieves[i].raw) else LostRace(i)
    case _ => Internal
  }

  /** The sets of stealing and overtaken thieves follow one thief's program counter. */
  lemma StealingAfter(thieves: seq<ThiefPc>, top: int, i: nat, pc: ThiefPc)
    requires i < |thieves|
    ensures Stealing(thieves[i := pc]) == if pc.Out? then Stealing(thieves) - {i} else Stealing(thieves) + {i}
    ensures Overtaken(thieves[i := pc], top) ==
      if !pc.Out? && pc.t < top then Overtaken(thieves, top) + {i} else Overtaken(thieves, top) - {i}
  {
  }

  /** Every thief has aimed at `top_` or below, so advancing `top_` overtakes all of them. */
  lemma AdvanceOvertakesAll(s: State)
    requires ShapeOk(s)
    ensures Overtaken(s.thieves, s.top + 1) == Stealing(s.thieves)
  {
    forall i | 0 <= i < |s.thieves|
      ensures s.thieves[i].Out? || s.thieves[i].t <= s.top
    {
      assert ThiefOk(Versions(s.mem, s.buf), s.top, s.log, s.thieves[i]);
    }
  }

  lemma OwnerStepRefines(s: State, step: Step)
    requires ShapeOk(s) && Enabled(s, step)
    requires step.PopLoadTop? || step.PopReadTaken? || step.PopRestoreBot? || step.PushStoreBot?
    ensures AtomicNext(Abstract(s), EventOf(s, step), Abstract(Do(s, step)))
  {
    ContentChanges(s);
    assert Do(s, step).thieves == s.thieves;
  }

  lemma PopRaceCasRefines(s: State)
    requires ShapeOk(s) && Enabled(s, PopRaceCas)
    ensures AtomicNext(Abstract(s), EventOf(s, PopRaceCas), Abstract(Do(s, PopRaceCas)))
  {
    ContentChanges(s);
    AdvanceOvertakesAll(s);
  }

  lemma ThiefStepRefines(s: State, step: Step)
    requires Enabled(s, step)
    requires step.ThiefLoadTop? || step.ThiefLoadBot? || step.ThiefLoadArray? || step.ThiefLoadSlot?
    ensures AtomicNext(Abstract(s), EventOf(s, step), Abstract(Do(s, step)))
  {
    var s' := Do(s, step);
    StealingAfter(s.thieves, s.top, step.i, s'.thieves[step.i]);
    assert Content(s') == Content(s) && s'.owner == s.owner && s'.top == s.top;
  }

  lemma ThiefCasRefines(s: State, i: nat)
    requires ShapeOk(s) && Enabled(s, ThiefCas(i))
    ensures AtomicNext(Abstract(s), EventOf(s, ThiefCas(i)), Abstract(Do(s, ThiefCas(i))))
  {
    var s' := Do(s, ThiefCas(i));
    assert ThiefOk(Versions(s.mem, s.buf), s.top, s.log, s.thieves[i]);
    AdvanceOvertakesAll(s);
    StealingAfter(s.thieves, s'.top, i, Out);
    if s.top == s.thieves[i].t {
      StealContent(s, i);
    }
  }

  /** Every other step moves only the owner's program counter, or memory. */
  lemma SilentStepRefines(s: State, step: Step)
    requires Enabled(s, step)
    requires
      || step.Drain? || step.PushLoadBot? || step.PushLoadTop? || step.PushLoadArray? || step.GrowPut?
      || step.GrowInstall? || step.PushStoreSlot? || step.PopLoadBot? || step.PopLoadArray? || step.PopStoreBot?
      || step.PopReadRaced?
    ensures AtomicNext(Abstract(s), EventOf(s, step), Abstract(Do(s, step)))
  {
    var s' := Do(s, step);
    assert s'.thieves == s.thieves && s'.top == s.top && s'.log == s.log;
    assert Content(s') == Content(s);
  }

  lemma StepRefines(s: State, step: Step)
    requires ShapeOk(s) && Enabled(s, step)
    ensures AtomicNext(Abstract(s), EventOf(s, step), Abstract(Do(s, step)))
  {
    if step.PopLoadTop? || step.PopReadTaken? || step.PopRestoreBot? || step.PushStoreBot? {
      OwnerStepRefines(s, step);
    } else if step.PopRaceCas? {
      PopRaceCasRefines(s);
    } else if step.ThiefLoadTop? || step.ThiefLoadBot? || step.ThiefLoadArray? || step.ThiefLoadSlot? {
      ThiefStepRefines(s, step);
    } else if step.ThiefCas? {
      ThiefCasRefines(s, step.i);
    } else {
      SilentStepRefines(s, step);
    }
  }

  // ---------------------------------------------------------------- what thieves can see of it

  /**
   * The atomic sequence, how many tasks have been taken from its front, and the ends of it that memory shows:
   * the first one now, and each further one when the owner's next store has drained.
   */
  datatype Observed = Observed(q: Atomic, shown: seq<int>, taken: int)

  const NOTHING_OBSERVED := Observed(EMPTY_DEQUE, [0], 0)

  /** The index behind the last task. */
  function End(o: Observed): int {
    o.taken + |o.q.content|
  }

  /**
   * The ends shown change silently when a store drains; when a push stores anything but `bot_`; and when a
   * pop announces itself, once, by an end that is one too low.
   */
  predicate ShownNext(o: Observed, shown: seq<int>)
    requires o.shown != []
  {
    || shown == o.shown
    || (|o.shown| > 1 && shown == o.shown[1..])
    || (o.q.owner.Pushing? && shown == o.shown + [Last(o.shown)])
    || (o.q.owner.Popping? && Last(o.shown) == End(o) && shown == o.shown + [End(o) - 1])
  }

  /**
   * A step of the atomic sequence and of what memory shows of it.  A pop is decided when all its stores have
   * drained, and shows the true end again when it returns; a thief is told "empty" only when the end that
   * memory shows now leaves no untaken task.
   */
  ghost predicate ObservedNext(o: Observed, e: Event, o': Observed) {
    && AtomicNext(o.q, e, o'.q) && o.shown != []
    && match e
       case Internal => ShownNext(o, o'.shown) && o'.taken == o.taken
       case Pushed(_) => o'.shown == o.shown + [End(o) + 1] && o'.taken == o.taken
       case TookLast(_) =>
         o.shown == o'.shown == [End(o) - 1] && o'.taken == o.taken + if |o.q.content| == 1 then 1 else 0
       case FoundEmpty => o.shown == o'.shown == [End(o) - 1] && o'.taken == o.taken
       case PopReturned(_) =>
         o'.shown == (if Last(o.shown) == End(o) then o.shown else o.shown + [End(o)]) && o'.taken == o.taken
       case StoleFirst(_, _) => o'.shown == o.shown && o'.taken == o.taken + 1
       case SawEmpty(_) => o.shown[0] <= o.taken && o'.shown == o.shown && o'.taken == o.taken
       case _ => o'.shown == o.shown && o'.taken == o.taken
  }

  function Bots(vs: seq<Mem>): seq<int> {
    seq(|vs|, k requires 0 <= k < |vs| => vs[k].bot)
  }

  function Observe(s: State): Observed {
    Observed(Abstract(s), Bots(Versions(s.mem, s.buf)), s.top)
  }

  lemma BotsOf(s: State)
    ensures
      var shown := Bots(Versions(s.mem, s.buf));
      |shown| == |s.buf| + 1 && shown[0] == s.mem.bot && Last(shown) == View(s).bot
  {
  }

  lemma BotsAfterStore(s: State, st: Store)
    ensures Bots(Versions(s.mem, s.buf + [st])) == Bots(Versions(s.mem, s.buf)) + [Apply(View(s), st).bot]
  {
    VersionsAfterStore(s.mem, s.buf, st);
  }

  lemma BotsAfterDrain(s: State)
    requires s.buf != []
    ensures Bots(Versions(Apply(s.mem, s.buf[0]), s.buf[1..])) == Bots(Versions(s.mem, s.buf))[1..]
  {
    VersionsAfterDrain(s.mem, s.buf);
  }

  lemma EndIsLog(s: State)
    requires 0 <= s.top <= |s.log|
    ensures End(Observe(s)) == |s.log|
  {
  }

  /** A pop is decided with all its stores drained ... */
  lemma PopLoadTopShows(s: State)
    requires ShapeOk(s) && Enabled(s, PopLoadTop)
    requires AtomicNext(Abstract(s), EventOf(s, PopLoadTop), Abstract(Do(s, PopLoadTop)))
    ensures ObservedNext(Observe(s), EventOf(s, PopLoadTop), Observe(Do(s, PopLoadTop)))
  {
    OneBot(s);
    EndIsLog(s);
  }

  lemma PopRaceCasShows(s: State)
    requires ShapeOk(s) && Enabled(s, PopRaceCas)
    requires AtomicNext(Abstract(s), EventOf(s, PopRaceCas), Abstract(Do(s, PopRaceCas)))
    ensures ObservedNext(Observe(s), EventOf(s, PopRaceCas), Observe(Do(s, PopRaceCas)))
  {
    OneBot(s);
    EndIsLog(s);
  }

  /** ... and one that has taken a task while others were left has the true end shown when it returns. */
  lemma PopReadTakenShows(s: State)
    requires ShapeOk(s) && Enabled(s, PopReadTaken)
    requires AtomicNext(Abstract(s), EventOf(s, PopReadTaken), Abstract(Do(s, PopReadTaken)))
    ensures ObservedNext(Observe(s), EventOf(s, PopReadTaken), Observe(Do(s, PopReadTaken)))
  {
    BotsOf(s);
    EndIsLog(s);
  }

  lemma OneBot(s: State)
    requires s.buf == []
    ensures Bots(Versions(s.mem, s.buf)) == [View(s).bot]
  {
  }

  lemma OwnerMoveShows(s: State, step: Step)
    requires Enabled(s, step)
    requires step.PushLoadBot? || step.PushLoadTop? || step.PopLoadBot? || step.PopLoadArray? || step.PopReadRaced?
    requires AtomicNext(Abstract(s), EventOf(s, step), Abstract(Do(s, step)))
    ensures ObservedNext(Observe(s), EventOf(s, step), Observe(Do(s, step)))
  {
    BotsOf(s);
  }

  lemma ThiefMoveShows(s: State, step: Step)
    requires ShapeOk(s) && Enabled(s, step)
    requires IsThiefStep(step)
    requires AtomicNext(Abstract(s), EventOf(s, step), Abstract(Do(s, step)))
    ensures ObservedNext(Observe(s), EventOf(s, step), Observe(Do(s, step)))
  {
    BotsOf(s);
    assert ThiefOk(Versions(s.mem, s.buf), s.top, s.log, s.thieves[step.i]);
  }

  /** A push's store of a slot or an array shows the same end once more. */
  lemma PushStoreShows(s: State, step: Step)
    requires Enabled(s, step)
    requires step.PushLoadArray? || step.GrowPut? || step.GrowInstall? || step.PushStoreSlot?
    requires AtomicNext(Abstract(s), EventOf(s, step), Abstract(Do(s, step)))
    ensures ObservedNext(Observe(s), EventOf(s, step), Observe(Do(s, step)))
  {
    BotsOf(s);
    var s' := Do(s, step);
    if s'.buf != s.buf {
      BotsAfterStore(s, Last(s'.buf));
      assert s'.buf == s.buf + [Last(s'.buf)];
    }
  }

  /** A store of `bot_` shows a new end. */
  lemma PushStoreBotShows(s: State)
    requires ShapeOk(s) && Enabled(s, PushStoreBot)
    requires AtomicNext(Abstract(s), EventOf(s, PushStoreBot), Abstract(Do(s, PushStoreBot)))
    ensures ObservedNext(Observe(s), EventOf(s, PushStoreBot), Observe(Do(s, PushStoreBot)))
  {
    BotsOf(s);
    EndIsLog(s);
    BotsAfterStore(s, SetBot(s.owner.b + 1));
  }

  lemma PopStoreBotShows(s: State)
    requires ShapeOk(s) && Enabled(s, PopStoreBot)
    requires AtomicNext(Abstract(s), EventOf(s, PopStoreBot), Abstract(Do(s, PopStoreBot)))
    ensures ObservedNext(Observe(s), EventOf(s, PopStoreBot), Observe(Do(s, PopStoreBot)))
  {
    BotsOf(s);
    EndIsLog(s);
    BotsAfterStore(s, SetBot(s.owner.b));
  }

  lemma PopRestoreBotShows(s: State)
    requires ShapeOk(s) && Enabled(s, PopRestoreBot)
    requires AtomicNext(Abstract(s), EventOf(s, PopRestoreBot), Abstract(Do(s, PopRestoreBot)))
    ensures ObservedNext(Observe(s), EventOf(s, PopRestoreBot), Observe(Do(s, PopRestoreBot)))
  {
    BotsOf(s);
    EndIsLog(s);
    BotsAfterStore(s, SetBot(s.owner.b + 1));
  }

  lemma DrainShows(s: State)
    requires ShapeOk(s) && Enabled(s, Drain)
    requires AtomicNext(Abstract(s), Internal, Abstract(Do(s, Drain)))
    ensures ObservedNext(Observe(s), Internal, Observe(Do(s, Drain)))
  {
    BotsOf(s);
    BotsAfterDrain(s);
  }

  lemma StepRefinesObserved(s: State, step: Step)
    requires ShapeOk(s) && Enabled(s, step)
    ensures ObservedNext(Observe(s), EventOf(s, step), Observe(Do(s, step)))
  {
    StepRefines(s, step);
    if step.Drain? {
      DrainShows(s);
    } else if step.PushStoreBot? {
      PushStoreBotShows(s);
    } else if step.PopStoreBot? {
      PopStoreBotShows(s);
    } else if step.PopRestoreBot? {
      PopRestoreBotShows(s);
    } else if step.PushLoadArray? || step.GrowPut? || step.GrowInstall? || step.PushStoreSlot? {
      PushStoreShows(s, step);
    } else if step.PopLoadTop? {
      PopLoadTopShows(s);
    } else if step.PopRaceCas? {
      PopRaceCasShows(s);
    } else if step.PopReadTaken? {
      PopReadTakenShows(s);
    } else if IsThiefStep(step) {
      ThiefMoveShows(s, step);
    } else {
      OwnerMoveShows(s, step);
    }
  }

  predicate IsThiefStep(step: Step) {
    step.ThiefLoadTop? || step.ThiefLoadBot? || step.ThiefLoadArray? || step.ThiefLoadSlot? || step.ThiefCas?
  }

  // ---------------------------------------------------------------- runs

  function Trace(s: State, steps: seq<Step>): seq<Event>
    decreases |steps|
  {
    if steps == [] || !Enabled(s, steps[0]) then []
    else [EventOf(s, steps[0])] + Trace(Do(s, steps[0]), steps[1..])
  }

  /** The events lead the observed sequence from `o` to `o'`. */
  ghost predicate AtomicRun(o: Observed, events: seq<Event>, o': Observed)
    decreases |events|
  {
    if events == [] then o == o'
    else exists m :: ObservedNext(o, events[0], m) && AtomicRun(m, events[1..], o')
  }

  lemma {:induction false} RunRefinesFrom(s: State, steps: seq<Step>, s': State)
    requires Inv(s) && Reaches(s, steps, s')
    ensures AtomicRun(Observe(s), Trace(s, steps), Observe(s'))
    decreases |steps|
  {
    if steps != [] {
      var m := Do(s, steps[0]);
      StepKeepsInv(s, steps[0]);
      StepRefinesObserved(s, steps[0]);
      RunRefinesFrom(m, steps[1..], s');
      assert Trace(s, steps)[1..] == Trace(m, steps[1..]);
    }
  }

  lemma NothingObservedAtFirst(thieves: nat)
    ensures Observe(Init(thieves)) == NOTHING_OBSERVED
  {
    OneVersion(Init(thieves).mem);
  }

  /**
   * Linearizability: the trace of any run is a trace of the atomic sequence, ending in the same content, in
   * which pops take the last task or find none, steals take the first or lose to another who did, and an
   * empty answer means that nothing untaken was visible.
   */
  lemma RunRefinesAtomicSequence(thieves: nat, steps: seq<Step>, s: State)
    requires Reaches(Init(thieves), steps, s)
    ensures AtomicRun(NOTHING_OBSERVED, Trace(Init(thieves), steps), Observe(s))
  {
    InitHasInv(thieves);
    NothingObservedAtFirst(thieves);
    RunRefinesFrom(Init(thieves), steps, s);
  }

  // ---------------------------------------------------------------- what an empty answer tells

  /**
   * What holds in every state of the observed sequence: no end is shown that is beyond the true one, and the
   * latest store shows the true one, or one too low while a pop is undecided or has left nothing.
   */
  ghost predicate Honest(o: Observed) {
    && o.shown != [] && (forall k | 0 <= k < |o.shown| :: o.shown[k] <= End(o))
    && match o.q.owner
       case Popping => Last(o.shown) == End(o) || Last(o.shown) == End(o) - 1
       case Popped(_) => Last(o.shown) == End(o) || (Last(o.shown) == End(o) - 1 && o.q.content == [])
       case _ => Last(o.shown) == End(o)
  }

  lemma NextIsHonest(o: Observed, e: Event, o': Observed)
    requires Honest(o) && ObservedNext(o, e, o')
    ensures Honest(o')
  {
  }

  lemma {:induction false} RunIsHonest(o: Observed, events: seq<Event>, o': Observed)
    requires Honest(o) && AtomicRun(o, events, o')
    ensures Honest(o')
    decreases |events|
  {
    if events != [] {
      var m :| ObservedNext(o, events[0], m) && AtomicRun(m, events[1..], o');
      NextIsHonest(o, events[0], m);
      RunIsHonest(m, events[1..], o');
    }
  }

  /**
   * In any trace: an empty answer, given when every store has drained, leaves no task in the sequence but one
   * that an undecided pop has announced.
   */
  lemma DrainedEmptyAnswerMeans(events: seq<Event>, o: Observed, i: nat, o': Observed)
    requires AtomicRun(NOTHING_OBSERVED, events, o) && ObservedNext(o, SawEmpty(i), o') && |o.shown| == 1
    ensures o.q.content == [] || (|o.q.content| == 1 && o.q.owner.Popping? && o.shown == [o.taken])
  {
    RunIsHonest(NOTHING_OBSERVED, events, o);
  }

  lemma {:induction false} RunSplits(o: Observed, first: seq<Event>, rest: seq<Event>, o': Observed)
    returns (m: Observed)
    requires AtomicRun(o, first + rest, o')
    ensures AtomicRun(o, first, m) && AtomicRun(m, rest, o')
    decreases |first|
  {
    if first == [] {
      assert first + rest == rest;
      m := o;
    } else {
      assert (first + rest)[1..] == first[1..] + rest;
      var m1 :| ObservedNext(o, first[0], m1) && AtomicRun(m1, first[1..] + rest, o');
      m := RunSplits(m1, first[1..], rest, o');
    }
  }

  /** Events of thieves, or of nobody in particular. */
  predicate OfThieves(e: Event) {
    e.Internal? || e.StealCalled? || e.StoleFirst? || e.SawEmpty? || e.LostRace?
  }

  /** From the decision of a pop until the owner's next event nothing is hidden. */
  lemma {:induction false} ThievesHideNothing(o: Observed, events: seq<Event>, o': Observed)
    requires Honest(o) && o.q.owner.Popped? && |o.shown| == 1 && AtomicRun(o, events, o')
    requires forall k | 0 <= k < |events| :: OfThieves(events[k])
    ensures Honest(o') && o'.q.owner.Popped? && |o'.shown| == 1
    decreases |events|
  {
    if events != [] {
      var m :| ObservedNext(o, events[0], m) && AtomicRun(m, events[1..], o');
      assert OfThieves(events[0]);
      NextIsHonest(o, events[0], m);
      ThievesHideNothing(m, events[1..], o');
    }
  }

  /**
   * Seen from the trace alone: between the moment a pop is decided and the owner's next event, an empty answer
   * is given only if the sequence is empty.
   */
  lemma EmptyAnswerAfterPopIsTrue(events: seq<Event>, before: seq<Event>, e: Event, between: seq<Event>, i: nat,
                                  o: Observed)
    requires AtomicRun(NOTHING_OBSERVED, events, o) && events == before + ([e] + (between + [SawEmpty(i)]))
    requires e.TookLast? || e.FoundEmpty?
    requires forall k | 0 <= k < |between| :: OfThieves(between[k])
    ensures o.q.content == []
  {
    var m := RunSplits(NOTHING_OBSERVED, before, [e] + (between + [SawEmpty(i)]), o);
    RunIsHonest(NOTHING_OBSERVED, before, m);
    EmptyAnswerAfterDecision(m, e, between, i, o);
  }

  lemma EmptyAnswerAfterDecision(o: Observed, e: Event, between: seq<Event>, i: nat, o': Observed)
    requires Honest(o) && AtomicRun(o, [e] + (between + [SawEmpty(i)]), o') && (e.TookLast? || e.FoundEmpty?)
    requires forall k | 0 <= k < |between| :: OfThieves(between[k])
    ensures o'.q.content == []
  {
    var m := RunSplits(o, [e], between + [SawEmpty(i)], o');
    OneEvent(o, e, m);
    PopIsDecided(o, e, m);
    EmptyAnswerToDrained(m, between, i, o');
  }

  lemma PopIsDecided(o: Observed, e: Event, o': Observed)
    requires Honest(o) && ObservedNext(o, e, o') && (e.TookLast? || e.FoundEmpty?)
    ensures Honest(o') && o'.q.owner.Popped? && |o'.shown| == 1
  {
    NextIsHonest(o, e, o');
  }

  lemma EmptyAnswerToDrained(o: Observed, between: seq<Event>, i: nat, o': Observed)
    requires Honest(o) && o.q.owner.Popped? && |o.shown| == 1 && AtomicRun(o, between + [SawEmpty(i)], o')
    requires forall k | 0 <= k < |between| :: OfThieves(between[k])
    ensures o'.q.content == []
  {
    var m := RunSplits(o, between, [SawEmpty(i)], o');
    ThievesHideNothing(o, between, m);
    OneEvent(m, SawEmpty(i), o');
  }

  lemma OneEvent(o: Observed, e: Event, o': Observed)
    requires AtomicRun(o, [e], o')
    ensures ObservedNext(o, e, o')
  {
    var m :| ObservedNext(o, [e][0], m) && AtomicRun(m, [e][1..], o');
  }
}
