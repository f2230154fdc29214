/**
 * The deque in the code's own form: an object whose methods make the accesses of the code in the code's
 * order.  Ghost fields follow the transition system, one step for each access of any thread.  Between
 * any two accesses of a call the other threads may do whatever they like; each call is proved to make
 * exactly its own events of the atomic sequence, with the result it returns.
 */
module ChaseLevDeques {
  import opened Wrappers
  import opened CircularArrays
  import opened DequeModel
  import opened DequeInvariant
  import opened DequeSteps
  import opened DequeTheorems
  import opened DequeRefinement

  // ---------------------------------------------------------------- whose event, whose step

  predicate Mine(me: Agent, e: Event) {
    match e
    case Internal => false
    case StealCalled(i) => me == Thief(i)
    case StoleFirst(i, _) => me == Thief(i)
    case SawEmpty(i) => me == Thief(i)
    case LostRace(i) => me == Thief(i)
    case _ => me == Owner
  }

  function IfMine(me: Agent, e: Event): seq<Event> {
    if Mine(me, e) then [e] else []
  }

  /** The events of one agent, in order. */
  function Own(me: Agent, es: seq<Event>): seq<Event> {
    if es == [] then [] else Own(me, es[..|es| - 1]) + IfMine(me, Last(es))
  }

  lemma OwnAppend(me: Agent, es: seq<Event>, e: Event)
    ensures Own(me, es + [e]) == Own(me, es) + IfMine(me, e)
  {
    assert (es + [e])[..|es|] == es;
  }

  /** Who makes a step; draining the store buffer is nobody's. */
  function By(step: Step): Option<Agent> {
    match step
    case Drain => None
    case ThiefLoadTop(i) => Some(Thief(i))
    case ThiefLoadBot(i) => Some(Thief(i))
    case ThiefLoadArray(i) => Some(Thief(i))
    case ThiefLoadSlot(i) => Some(Thief(i))
    case ThiefCas(i) => Some(Thief(i))
    case _ => Some(Owner)
  }

  /** What the steps of others leave to agent `me`. */
  predicate Unmoved(me: Agent, s: State, s': State) {
    && s.top <= s'.top && |s'.thieves| == |s.thieves|
    && match me
       case Owner => s'.owner == s.owner && |s'.buf| <= |s.buf|
       case Thief(i) => i < |s.thieves| ==> s'.thieves[i] == s.thieves[i]
  }

  /** Any step of another agent, and any drain, respects what `Others` promises below. */
  lemma OthersLeaveMine(me: Agent, s: State, step: Step)
    requires Enabled(s, step) && By(step) != Some(me)
    ensures Unmoved(me, s, Do(s, step)) && !Mine(me, EventOf(s, step))
  {
  }

  /** The trace of a run goes on by the event of the next step. */
  lemma {:induction false} TraceGoesOn(s: State, steps: seq<Step>, m: State, step: Step)
    requires Reaches(s, steps, m) && Enabled(m, step)
    ensures Trace(s, steps + [step]) == Trace(s, steps) + [EventOf(m, step)]
    decreases |steps|
  {
    if steps == [] {
      assert [step][1..] == [];
      assert steps + [step] == [step];
    } else {
      TraceGoesOn(Do(s, steps[0]), steps[1..], m, step);
      assert (steps + [step])[1..] == steps[1..] + [step];
    }
  }

  lemma {:induction false} VersionsAt(m: Mem, buf: seq<Store>, k: nat)
    requires k < |buf|
    ensures Versions(m, buf)[k + 1] == Apply(Versions(m, buf)[k], buf[k])
    decreases |buf|
  {
    if k > 0 {
      VersionsAt(Apply(m, buf[0]), buf[1..], k - 1);
    }
  }

  // ---------------------------------------------------------------- what the locals hold

  /** The next array to reach memory is the next larger one. */
  lemma NextAllocation(thieves: nat, steps: seq<Step>, s: State)
    requires Reaches(Init(thieves), steps, s) && s.buf != [] && s.buf[0].Alloc?
    ensures s.buf[0].cap == Cap(|s.mem.arrays|)
  {
    InitHasInv(thieves);
    RunKeepsInv(Init(thieves), steps, s);
    var vs := Versions(s.mem, s.buf);
    VersionsAt(s.mem, s.buf, 0);
    assert VersionOk(vs[0], s.log) && VersionOk(vs[1], s.log);
    assert |vs[1].arrays[|s.mem.arrays|]| == Cap(|s.mem.arrays|);
  }

  /** What a pop reads once it has claimed, and what it holds if it wins the race. */
  lemma OwnerHoldsTask(thieves: nat, steps: seq<Step>, s: State)
    requires Reaches(Init(thieves), steps, s)
    ensures s.owner.PopTake? ==> At(View(s), s.owner.a, s.owner.b) == Some(s.owner.claim)
    ensures s.owner.PopCas? && s.top == s.owner.b ==> s.owner.raw.Some?
    ensures s.owner.PushGotTop? ==> s.owner.t <= s.owner.b
  {
    InitHasInv(thieves);
    RunKeepsInv(Init(thieves), steps, s);
  }

  lemma ThiefHoldsTask(thieves: nat, steps: seq<Step>, s: State, i: nat)
    requires Reaches(Init(thieves), steps, s) && i < |s.thieves|
    ensures s.thieves[i].GotArray? ==> 0 <= s.thieves[i].t && CapOf(s.mem, s.thieves[i].a) > 0
    ensures s.thieves[i].GotSlot? && s.top == s.thieves[i].t ==> s.thieves[i].raw.Some?
  {
    InitHasInv(thieves);
    RunKeepsInv(Init(thieves), steps, s);
    assert ThiefOk(Versions(s.mem, s.buf), s.top, s.log, s.thieves[i]);
  }

  /** Memory never shows more than the content, and between the owner's calls, once drained, just that. */
  lemma MemoryShows(thieves: nat, steps: seq<Step>, s: State)
    requires Reaches(Init(thieves), steps, s)
    ensures 0 <= s.top <= |s.log| && s.mem.bot <= |s.log| && |Content(s)| == |s.log| - s.top
    ensures s.owner.Idle? && s.buf == [] ==>
      && s.mem.bot == |s.log| && CapOf(s.mem, s.mem.cur) > 0 && |s.mem.arrays| == s.mem.cur + 1
      && forall i | s.top <= i < |s.log| :: At(s.mem, s.mem.cur, i) == Some(s.log[i])
  {
    InitHasInv(thieves);
    RunKeepsInv(Init(thieves), steps, s);
    var vs := Versions(s.mem, s.buf);
    assert vs[0] == s.mem && VersionOk(vs[0], s.log);
    if s.buf == [] {
      OneVersion(s.mem);
    }
  }

  // ---------------------------------------------------------------- the object

  class ChaseLevDeque {
    var top: int
    var bot: int
    var cur: nat                    // `array_`, as an index into `arrays`
    var arrays: seq<CircularArray>  // the current array and all retired ones: none is ever freed
    var buffer: seq<Store>          // the owner's stores that have not reached memory yet
    ghost const thieves: nat
    ghost var history: seq<Step>
    ghost var s: State
    ghost var Repr: set<object>

    /** The fields show memory `m`. */
    ghost predicate Shows(m: Mem)
      reads this, Repr
    {
      && this in Repr && m.bot == bot && m.cur == cur && |m.arrays| == |arrays|
      && (forall j | 0 <= j < |arrays| ::
            arrays[j].buf in Repr && arrays[j].Valid() && arrays[j].buf[..] == m.arrays[j])
      && (forall j, k | 0 <= j < k < |arrays| :: arrays[j].buf != arrays[k].buf)
    }

    /** The fields are what the transition system says they are. */
    ghost predicate Faithful()
      reads this, Repr
    {
      s.top == top && s.buf == buffer && Shows(s.mem)
    }

    /** All accesses so far, of all threads, are a run of the transition system. */
    ghost predicate Sound()
      reads this
    {
      Reaches(Init(thieves), history, s)
    }

    /** What agent `me` has done to the atomic sequence so far. */
    ghost function Done(me: Agent): seq<Event>
      reads this
    {
      Own(me, Trace(Init(thieves), history))
    }

    ghost predicate Valid()
      reads this, Repr
    {
      Faithful() && Sound()
    }

    constructor (ghost thieves: nat)
      ensures Valid() && this.thieves == thieves && s == Init(thieves) && history == [] && fresh(Repr)
    {
      top, bot, cur, buffer := 0, 0, 0, [];
      var a := new CircularArray(INITIAL_LOG2_CAP);
      arrays, Repr := [a], {this, a.buf};
      this.thieves := thieves;
      s, history := Init(thieves), [];
    }

    // -------------------------------------------------------------- single accesses

    /** The ghost fields follow one step. */
    ghost method Follow(step: Step)
      requires Sound() && Enabled(s, step)
      modifies this`s, this`history
      ensures Sound() && s == Do(old(s), step) && history == old(history) + [step]
      ensures forall me :: Done(me) == old(Done(me)) + IfMine(me, EventOf(old(s), step))
    {
      RunGoesOn(Init(thieves), history, s, step);
      TraceGoesOn(Init(thieves), history, s, step);
      forall me
        ensures Own(me, Trace(Init(thieves), history + [step])) == Done(me) + IfMine(me, EventOf(s, step))
      {
        OwnAppend(me, Trace(Init(thieves), history), EventOf(s, step));
      }
      s, history := Do(s, step), history + [step];
    }

    /** A load has been made: it moves nothing but the caller's program counter. */
    ghost method Loaded(step: Step)
      requires Valid() && Enabled(s, step)
      requires var s' := Do(s, step); s'.top == s.top && s'.mem == s.mem && s'.buf == s.buf
      modifies this`s, this`history
      ensures Valid() && s == Do(old(s), step)
      ensures forall me :: Done(me) == old(Done(me)) + IfMine(me, EventOf(old(s), step))
    {
      Follow(step);
    }

    /** A plain store of the owner enters the store buffer. */
    method Store(st: Store, ghost step: Step)
      requires Valid() && Enabled(s, step)
      requires var s' := Do(s, step); s'.top == s.top && s'.mem == s.mem && s'.buf == s.buf + [st]
      modifies this`buffer, this`s, this`history
      ensures Valid() && s == Do(old(s), step)
      ensures forall me :: Done(me) == old(Done(me)) + IfMine(me, EventOf(old(s), step))
    {
      buffer := buffer + [st];
      Follow(step);
    }

    /** `compare_exchange_strong(expected, expected + 1)` on `top_`. */
    method CasTop(expected: int, ghost step: Step) returns (won: bool)
      requires Valid() && Enabled(s, step)
      requires
        var s' := Do(s, step);
        s'.top == (if s.top == expected then expected + 1 else s.top) && s'.mem == s.mem && s'.buf == s.buf
      modifies this`top, this`s, this`history
      ensures Valid() && s == Do(old(s), step) && won == (old(s).top == expected)
      ensures forall me :: Done(me) == old(Done(me)) + IfMine(me, EventOf(old(s), step))
    {
      won := top == expected;
      if won {
        top := expected + 1;
      }
      Follow(step);
    }

    method Land(st: Store, ghost m: Mem)
      requires Shows(m) && (st.Alloc? ==> st.cap == Cap(|m.arrays|))
      modifies this`bot, this`cur, this`arrays, this`Repr, Repr - {this}
      ensures Shows(Apply(m, st)) && fresh(Repr - old(Repr))
      ensures old(arrays) <= arrays
    {
      match st
      case Alloc(cap) =>
        var a := new CircularArray(INITIAL_LOG2_CAP + |arrays|);
        arrays, Repr := arrays + [a], Repr + {a.buf};
      case PutSlot(j, i, p) =>
        if j < |arrays| && i >= 0 {
          arrays[j].PutAt(i, p);
        }
      case SetArray(j) => cur := j;
      case SetBot(b) => bot := b;
    }

    /** The oldest buffered store reaches memory. */
    method Drain()
      requires Valid() && buffer != []
      modifies Repr
      ensures Valid() && s == Do(old(s), DequeModel.Drain) && fresh(Repr - old(Repr))
      ensures forall me :: Done(me) == old(Done(me))
      ensures old(arrays) <= arrays
    {
      if buffer[0].Alloc? {
        NextAllocation(thieves, history, s);
      }
      Land(buffer[0], s.mem);
      buffer := buffer[1..];
      Follow(DequeModel.Drain);
    }

    /** The full fence waits until the owner's stores have all reached memory. */
    method Fence()
      requires Valid()
      modifies Repr
      ensures Valid() && s.owner == old(s).owner && s.buf == [] && fresh(Repr - old(Repr))
      ensures forall me :: Done(me) == old(Done(me))
    {
      while buffer != []
        invariant Valid() && s.owner == old(s).owner && fresh(Repr - old(Repr))
        invariant forall me :: Done(me) == old(Done(me))
        decreases |buffer|
      {
        Drain();
      }
    }

    /** Any steps of the other agents.  Only this contract is known of them; see `OthersLeaveMine`. */
    method Others(ghost me: Agent)
      requires Valid()
      modifies Repr
      ensures Valid() && Unmoved(me, old(s), s) && fresh(Repr - old(Repr))
      ensures Done(me) == old(Done(me))
      ensures old(arrays) <= arrays
    {
    }

    /** Memory as the owner's loads find it: a load first looks into the owner's own store buffer. */
    method OwnerView() returns (v: Mem)
      requires Valid()
      ensures v == View(s)
    {
      var slots: seq<seq<Slot>> := [];
      for j := 0 to |arrays|
        invariant slots == s.mem.arrays[..j]
      {
        slots := slots + [arrays[j].buf[..]];
      }
      v := Mem(bot, cur, slots);
      for k := 0 to |buffer|
        invariant v == Versions(s.mem, s.buf)[k]
      {
        VersionsAt(s.mem, s.buf, k);
        v := Apply(v, buffer[k]);
      }
    }

    // -------------------------------------------------------------- the owner: push

    /** One access of `push_bottom` each, with whatever the others do after it. */
    method LoadBotToPush(x: Task) returns (b: int)
      requires Valid() && s.owner.Idle?
      modifies Repr
      ensures Valid() && s.owner == PushGotBot(x, b) && fresh(Repr - old(Repr))
      ensures Done(Owner) == old(Done(Owner)) + [PushCalled(x)]
      ensures b == View(old(s)).bot
    {
      var v := OwnerView();
      b := v.bot;
      Loaded(PushLoadBot(x));
      Others(Owner);
    }

    method LoadTopToPush(ghost x: Task, ghost b: int) returns (t: int)
      requires Valid() && s.owner == PushGotBot(x, b)
      modifies Repr
      ensures Valid() && s.owner == PushGotTop(x, b, t) && fresh(Repr - old(Repr))
      ensures Done(Owner) == old(Done(Owner))
      ensures t == old(top)
    {
      t := top;
      Loaded(PushLoadTop);
      Others(Owner);
    }

    /** A new array is allocated when the current one looks full. */
    method LoadArrayToPush(ghost x: Task, b: int, t: int) returns (a: nat, full: bool, next: nat)
      requires Valid() && s.owner == PushGotTop(x, b, t)
      modifies Repr
      ensures Valid() && s.owner == (if full then GrowCopy(x, b, t, a, next, t) else PushPut(x, b, a))
      ensures (full ==> t <= b) && fresh(Repr - old(Repr)) && Done(Owner) == old(Done(Owner))
      ensures a == View(old(s)).cur && full == (b - t >= CapOf(View(old(s)), a) - 1)
    {
      OwnerHoldsTask(thieves, history, s);
      var v := OwnerView();
      a, next := v.cur, |v.arrays|;
      full := b - t >= CapOf(v, a) - 1;
      if full {
        Store(Alloc(2 * CapOf(v, a)), PushLoadArray);
      } else {
        Loaded(PushLoadArray);
      }
      Others(Owner);
    }

    method CopyEntry(ghost x: Task, ghost b: int, ghost t: int, a: nat, next: nat, i: int)
      requires Valid() && s.owner == GrowCopy(x, b, t, a, next, i) && i < b
      modifies Repr
      ensures Valid() && s.owner == GrowCopy(x, b, t, a, next, i + 1) && fresh(Repr - old(Repr))
      ensures Done(Owner) == old(Done(Owner))
    {
      var v := OwnerView();
      Store(PutSlot(next, i, At(v, a, i)), GrowPut);
      Others(Owner);
    }

    method InstallArray(ghost x: Task, ghost b: int, ghost t: int, ghost a: nat, next: nat)
      requires Valid() && s.owner == GrowCopy(x, b, t, a, next, b)
      modifies Repr
      ensures Valid() && s.owner == PushPut(x, b, next) && fresh(Repr - old(Repr))
      ensures Done(Owner) == old(Done(Owner))
      ensures old(arrays) <= arrays
    {
      Store(SetArray(next), GrowInstall);
      Others(Owner);
    }

    /** Copies the entries `[t, b)` into the array just allocated and installs it. */
    method Grow(ghost x: Task, b: int, t: int, a: nat, next: nat)
      requires Valid() && s.owner == GrowCopy(x, b, t, a, next, t) && t <= b
      modifies Repr
      ensures Valid() && s.owner == PushPut(x, b, next) && fresh(Repr - old(Repr))
      ensures Done(Owner) == old(Done(Owner))
    {
      var i := t;
      while i < b
        invariant t <= i <= b && Valid() && s.owner == GrowCopy(x, b, t, a, next, i)
        invariant fresh(Repr - old(Repr)) && Done(Owner) == old(Done(Owner))
      {
        CopyEntry(x, b, t, a, next, i);
        i := i + 1;
      }
      InstallArray(x, b, t, a, next);
    }

    method StoreSlot(x: Task, b: int, a: nat)
      requires Valid() && s.owner == PushPut(x, b, a)
      modifies Repr
      ensures Valid() && s.owner == PushPublish(x, b, a) && fresh(Repr - old(Repr))
      ensures Done(Owner) == old(Done(Owner))
    {
      Store(PutSlot(a, b, Some(x)), PushStoreSlot);
      Others(Owner);
    }

    method PublishBot(ghost x: Task, b: int, ghost a: nat)
      requires Valid() && s.owner == PushPublish(x, b, a)
      modifies Repr
      ensures Valid() && s.owner.Idle? && fresh(Repr - old(Repr))
      ensures Done(Owner) == old(Done(Owner)) + [Pushed(x)]
    {
      Store(SetBot(b + 1), PushStoreBot);
      Others(Owner);
    }

    /** The array to push into: the current one, or one grown from it. */
    method FindRoom(ghost x: Task, b: int, t: int) returns (a: nat)
      requires Valid() && s.owner == PushGotTop(x, b, t)
      modifies Repr
      ensures Valid() && s.owner == PushPut(x, b, a) && fresh(Repr - old(Repr))
      ensures Done(Owner) == old(Done(Owner))
    {
      var current, full, next := LoadArrayToPush(x, b, t);
      if full {
        Grow(x, b, t, current, next);
      }
      a := if full then next else current;
    }

    method FillSlot(x: Task, b: int, a: nat)
      requires Valid() && s.owner == PushPut(x, b, a)
      modifies Repr
      ensures Valid() && s.owner.Idle? && fresh(Repr - old(Repr))
      ensures Done(Owner) == old(Done(Owner)) + [Pushed(x)]
    {
      StoreSlot(x, b, a);
      PublishBot(x, b, a);
    }

    /** Whatever the others do meanwhile, a push appends `x` once, atomically. */
    method PushBottom(x: Task)
      requires Valid() && s.owner.Idle?
      modifies Repr
      ensures Valid() && s.owner.Idle? && fresh(Repr - old(Repr))
      ensures Done(Owner) == old(Done(Owner)) + [PushCalled(x), Pushed(x)]
    {
      var b := LoadBotToPush(x);
      var t := LoadTopToPush(x, b);
      var a := FindRoom(x, b, t);
      FillSlot(x, b, a);
    }

    // -------------------------------------------------------------- the owner: pop

    method LoadBotToPop() returns (b: int)
      requires Valid() && s.owner.Idle?
      modifies Repr
      ensures Valid() && s.owner == PopGotBot(b) && fresh(Repr - old(Repr))
      ensures Done(Owner) == old(Done(Owner)) + [PopCalled]
      ensures b == View(old(s)).bot - 1
    {
      var v := OwnerView();
      b := v.bot - 1;
      Loaded(PopLoadBot);
      Others(Owner);
    }

    method LoadArrayToPop(ghost b: int) returns (a: nat)
      requires Valid() && s.owner == PopGotBot(b)
      modifies Repr
      ensures Valid() && s.owner == PopGotArray(b, a) && fresh(Repr - old(Repr))
      ensures Done(Owner) == old(Done(Owner))
      ensures a == View(old(s)).cur
    {
      var v := OwnerView();
      a := v.cur;
      Loaded(PopLoadArray);
      Others(Owner);
    }

    /** Lowers `bot_` and waits at the fence. */
    method LowerBot(b: int, ghost a: nat)
      requires Valid() && s.owner == PopGotArray(b, a)
      modifies Repr
      ensures Valid() && s.owner == PopStored(b, a) && buffer == [] && fresh(Repr - old(Repr))
      ensures Done(Owner) == old(Done(Owner))
    {
      Store(SetBot(b), PopStoreBot);
      Fence();
      Others(Owner);
    }

    /** The deciding load: empty, or the last task, or a task out of every thief's reach. */
    method LoadTopToPop(ghost b: int, ghost a: nat) returns (t: int)
      requires Valid() && s.owner == PopStored(b, a) && buffer == []
      modifies Repr
      ensures Valid() && buffer == [] && fresh(Repr - old(Repr))
      ensures t > b ==> s.owner == PopRestore(b, None) && Done(Owner) == old(Done(Owner)) + [FoundEmpty]
      ensures t == b ==> s.owner == PopRace(b, a) && Done(Owner) == old(Done(Owner))
      ensures t < b ==>
        && s.owner.PopTake? && s.owner == PopTake(b, a, s.owner.claim)
        && Done(Owner) == old(Done(Owner)) + [TookLast(Some(s.owner.claim))]
      ensures t == old(top)
    {
      t := top;
      Loaded(PopLoadTop);
      Others(Owner);
    }

    method ReadTaken(b: int, a: nat) returns (raw: Slot)
      requires Valid() && s.owner.PopTake? && s.owner == PopTake(b, a, s.owner.claim)
      modifies Repr
      ensures Valid() && s.owner.Idle? && raw == Some(old(s).owner.claim) && fresh(Repr - old(Repr))
      ensures Done(Owner) == old(Done(Owner)) + [PopReturned(raw)]
      ensures raw == At(View(old(s)), a, b)
    {
      OwnerHoldsTask(thieves, history, s);
      var v := OwnerView();
      raw := At(v, a, b);
      Loaded(PopReadTaken);
      Others(Owner);
    }

    method ReadRaced(b: int, a: nat) returns (raw: Slot)
      requires Valid() && s.owner == PopRace(b, a) && buffer == []
      modifies Repr
      ensures Valid() && s.owner == PopCas(b, raw) && buffer == [] && fresh(Repr - old(Repr))
      ensures Done(Owner) == old(Done(Owner))
      ensures raw == At(View(old(s)), a, b)
    {
      var v := OwnerView();
      raw := At(v, a, b);
      Loaded(PopReadRaced);
      Others(Owner);
    }

    method RaceForLast(b: int, raw: Slot) returns (won: bool)
      requires Valid() && s.owner == PopCas(b, raw) && buffer == []
      modifies Repr
      ensures Valid() && fresh(Repr - old(Repr))
      ensures s.owner == PopRestore(b, if won then raw else None) && (won ==> raw.Some?)
      ensures Done(Owner) == old(Done(Owner)) + [if won then TookLast(raw) else FoundEmpty]
      ensures won == (old(top) == b)
    {
      OwnerHoldsTask(thieves, history, s);
      won := CasTop(b, PopRaceCas);
      Others(Owner);
    }

    method RestoreBot(b: int, ghost r: Slot)
      requires Valid() && s.owner == PopRestore(b, r)
      modifies Repr
      ensures Valid() && s.owner.Idle? && fresh(Repr - old(Repr))
      ensures Done(Owner) == old(Done(Owner)) + [PopReturned(r)]
    {
      Store(SetBot(b + 1), PopRestoreBot);
      Others(Owner);
    }

    /** The part of a pop before its deciding load. */
    method AnnouncePop() returns (b: int, a: nat)
      requires Valid() && s.owner.Idle?
      modifies Repr
      ensures Valid() && s.owner == PopStored(b, a) && buffer == [] && fresh(Repr - old(Repr))
      ensures Done(Owner) == old(Done(Owner)) + [PopCalled]
    {
      b := LoadBotToPop();
      a := LoadArrayToPop(b);
      LowerBot(b, a);
    }

    /** The race for the last task, up to the return. */
    method TakeLast(b: int, a: nat) returns (r: Slot)
      requires Valid() && s.owner == PopRace(b, a) && buffer == []
      modifies Repr
      ensures Valid() && s.owner.Idle? && fresh(Repr - old(Repr))
      ensures Done(Owner) == old(Done(Owner)) + [if r.Some? then TookLast(r) else FoundEmpty, PopReturned(r)]
    {
      var raw := ReadRaced(b, a);
      var won := RaceForLast(b, raw);
      r := if won then raw else None;
      RestoreBot(b, r);
    }

    /** A pop takes the last task atomically and returns it, or finds the deque empty at one instant of the call. */
    method PopBottom() returns (r: Slot)
      requires Valid() && s.owner.Idle?
      modifies Repr
      ensures Valid() && s.owner.Idle? && fresh(Repr - old(Repr))
      ensures Done(Owner) ==
        old(Done(Owner)) + [PopCalled, if r.Some? then TookLast(r) else FoundEmpty, PopReturned(r)]
    {
      var b, a := AnnouncePop();
      var t := LoadTopToPop(b, a);
      if t > b {
        RestoreBot(b, None);
        r := None;
      } else if t < b {
        r := ReadTaken(b, a);
      } else {
        r := TakeLast(b, a);
      }
    }

    // -------------------------------------------------------------- thieves

    method LoadTopToSteal(i: nat) returns (t: int)
      requires Valid() && i < |s.thieves| && s.thieves[i].Out?
      modifies Repr
      ensures Valid() && i < |s.thieves| && s.thieves[i] == GotTop(t) && fresh(Repr - old(Repr))
      ensures Done(Thief(i)) == old(Done(Thief(i))) + [StealCalled(i)]
      ensures t == old(top)
    {
      t := top;
      Loaded(ThiefLoadTop(i));
      Others(Thief(i));
    }

    method LoadBotToSteal(i: nat, t: int) returns (b: int)
      requires Valid() && i < |s.thieves| && s.thieves[i] == GotTop(t)
      modifies Repr
      ensures Valid() && i < |s.thieves| && s.thieves[i] == (if t >= b then Out else GotBot(t))
      ensures fresh(Repr - old(Repr))
      ensures Done(Thief(i)) == old(Done(Thief(i))) + if t >= b then [SawEmpty(i)] else []
      ensures b == old(bot)
    {
      b := bot;
      Loaded(ThiefLoadBot(i));
      Others(Thief(i));
    }

    method LoadArrayToSteal(i: nat, ghost t: int) returns (a: nat)
      requires Valid() && i < |s.thieves| && s.thieves[i] == GotBot(t)
      modifies Repr
      ensures Valid() && i < |s.thieves| && s.thieves[i] == GotArray(t, a) && fresh(Repr - old(Repr))
      ensures Done(Thief(i)) == old(Done(Thief(i)))
      ensures a == old(cur)
    {
      a := cur;
      Loaded(ThiefLoadArray(i));
      Others(Thief(i));
    }

    /** The array may have been retired meanwhile; it is still there to be read. */
    method ReadSlot(i: nat, t: int, a: nat) returns (raw: Slot)
      requires Valid() && i < |s.thieves| && s.thieves[i] == GotArray(t, a)
      modifies Repr
      ensures Valid() && i < |s.thieves| && s.thieves[i] == GotSlot(t, raw) && fresh(Repr - old(Repr))
      ensures Done(Thief(i)) == old(Done(Thief(i)))
      ensures raw == At(old(s).mem, a, t)
    {
      ThiefHoldsTask(thieves, history, s, i);
      raw := arrays[a].GetAt(t);
      Loaded(ThiefLoadSlot(i));
      Others(Thief(i));
    }

    method CasToSteal(i: nat, t: int, ghost raw: Slot) returns (won: bool)
      requires Valid() && i < |s.thieves| && s.thieves[i] == GotSlot(t, raw)
      modifies Repr
      ensures Valid() && i < |s.thieves| && s.thieves[i].Out? && (won ==> raw.Some?)
      ensures fresh(Repr - old(Repr))
      ensures Done(Thief(i)) == old(Done(Thief(i))) + [if won then StoleFirst(i, raw) else LostRace(i)]
      ensures won == (old(top) == t)
    {
      ThiefHoldsTask(thieves, history, s, i);
      won := CasTop(t, ThiefCas(i));
      Others(Thief(i));
    }

    method TrySlot(i: nat, t: int) returns (task: Slot)
      requires Valid() && i < |s.thieves| && s.thieves[i] == GotBot(t)
      modifies Repr
      ensures Valid() && i < |s.thieves| && s.thieves[i].Out? && fresh(Repr - old(Repr))
      ensures Done(Thief(i)) == old(Done(Thief(i))) + [if task.Some? then StoleFirst(i, task) else LostRace(i)]
    {
      var a := LoadArrayToSteal(i, t);
      var raw := ReadSlot(i, t, a);
      var won := CasToSteal(i, t, raw);
      task := if won then raw else None;
    }

    /**
     * A steal takes the oldest task atomically and returns it; `empty` tells an empty-looking deque from a lost
     * race.
     */
    method Steal(i: nat) returns (task: Slot, empty: bool)
      requires Valid() && i < |s.thieves| && s.thieves[i].Out?
      modifies Repr
      ensures Valid() && i < |s.thieves| && s.thieves[i].Out? && fresh(Repr - old(Repr))
      ensures Done(Thief(i)) == old(Done(Thief(i))) +
        [StealCalled(i), if task.Some? then StoleFirst(i, task) else if empty then SawEmpty(i) else LostRace(i)]
      ensures task.Some? ==> !empty
    {
      var t := LoadTopToSteal(i);
      var b := LoadBotToSteal(i, t);
      if t >= b {
        return None, true;
      }
      task := TrySlot(i, t);
      empty := false;
    }

    // -------------------------------------------------------------- observers and the end

    /** `size`, asked by a thread other than the owner: never more than there is, and exact when all is at rest. */
    method Size(i: nat) returns (n: nat)
      requires Valid()
      modifies Repr
      ensures Valid() && fresh(Repr - old(Repr))
      ensures n == (if old(bot) > top then old(bot) - top else 0) && n <= |Content(old(s))|
      ensures old(s).owner.Idle? && old(s).buf == [] && s.top == old(s).top ==> n == |Content(old(s))|
    {
      MemoryShows(thieves, history, s);
      var b := bot;
      Others(Thief(i));
      var t := top;
      n := if b - t > 0 then b - t else 0;
    }

    /** `empty`: a deque that shows a task has one, and at rest one that shows none has none. */
    method Empty(i: nat) returns (e: bool)
      requires Valid()
      modifies Repr
      ensures Valid() && fresh(Repr - old(Repr))
      ensures e == (old(bot) <= top) && (!e ==> Content(old(s)) != [])
      ensures old(s).owner.Idle? && old(s).buf == [] && s.top == old(s).top ==> (e <==> Content(old(s)) == [])
    {
      MemoryShows(thieves, history, s);
      var b := bot;
      Others(Thief(i));
      var t := top;
      e := b <= t;
    }

    /**
     * The destructor, once no other thread is left: frees each remaining task once, oldest first, then the
     * current array and every retired one.
     */
    method Destroy() returns (freed: seq<Task>, arraysFreed: seq<CircularArray>)
      requires Valid() && s.owner.Idle? && buffer == []
      ensures freed == Content(s)
      ensures |arrays| == cur + 1 && arraysFreed == [arrays[cur]] + arrays[..cur]
    {
      MemoryShows(thieves, history, s);
      freed := [];
      var i := top;
      while i < bot
        invariant top <= i <= bot && freed == s.log[top..i]
      {
        var p := arrays[cur].GetAt(i);
        assert p == At(s.mem, cur, i);
        freed := freed + [p.value];
        i := i + 1;
      }
      arraysFreed := [arrays[cur]];
      for j := 0 to |arrays| - 1
        invariant arraysFreed == [arrays[cur]] + arrays[..j]
      {
        arraysFreed := arraysFreed + [arrays[j]];
      }
    }
  }
}
