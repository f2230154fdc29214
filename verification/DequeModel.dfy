/**
 * The Chase-Lev deque as a transition system.  Every step is one atomic access of one thread.
 *
 * Memory is x86-TSO for the owner: its plain stores (slots, `array_`, `bot_`) enter a FIFO store
 * buffer and reach memory later, at an arbitrary `Drain`; the owner reads its own buffer first.
 * The pop fence and the owner's CAS wait for the buffer to be empty.  Thieves only load and CAS, so
 * they need no buffer.  A sequentially consistent run is one in which each store is drained at once.
 */
module DequeModel {
  import opened Wrappers
  import opened Arithmetic
  import opened CircularArrays

  /** What a thief can see: `bot_`, `array_` (an index into all arrays ever installed), their slots. */
  datatype Mem = Mem(bot: int, cur: nat, arrays: seq<seq<Slot>>)

  datatype Store =
    | Alloc(cap: nat)                        // zero-initialise a new array
    | PutSlot(arr: nat, idx: int, p: Slot)
    | SetArray(arr: nat)
    | SetBot(b: int)

  datatype Agent = Owner | Thief(i: nat)

  /** Where the owner is, with its locals.  `claim` and the last `r` are already linearized results. */
  datatype OwnerPc =
    | Idle
    | PushGotBot(x: Task, b: int)
    | PushGotTop(x: Task, b: int, t: int)
    | GrowCopy(x: Task, b: int, t: int, a: nat, next: nat, i: int)
    | PushPut(x: Task, b: int, a: nat)
    | PushPublish(x: Task, b: int, a: nat)
    | PopGotBot(b: int)
    | PopGotArray(b: int, a: nat)
    | PopStored(b: int, a: nat)
    | PopTake(b: int, a: nat, claim: Task)
    | PopRace(b: int, a: nat)
    | PopCas(b: int, raw: Slot)
    | PopRestore(b: int, r: Slot)

  datatype ThiefPc =
    | Out
    | GotTop(t: int)
    | GotBot(t: int)
    | GotArray(t: int, a: nat)
    | GotSlot(t: int, raw: Slot)

  /**
   * `log` is the history of logical bottoms: `log[i]` is the task at index `i` and `|log|` the logical
   * end, so the content of the deque is `log[top..]`.  The other histories only record.
   */
  datatype State = State(
    top: int, mem: Mem, buf: seq<Store>, owner: OwnerPc, thieves: seq<ThiefPc>,
    log: seq<Task>, pushed: multiset<Task>, returned: multiset<Task>, winners: seq<Agent>,
    copied: nat, peak: int)

  datatype Step =
    | Drain
    | PushLoadBot(x: Task) | PushLoadTop | PushLoadArray | GrowPut | GrowInstall | PushStoreSlot | PushStoreBot
    | PopLoadBot | PopLoadArray | PopStoreBot | PopLoadTop | PopReadTaken | PopReadRaced | PopRaceCas | PopRestoreBot
    | ThiefLoadTop(i: nat) | ThiefLoadBot(i: nat) | ThiefLoadArray(i: nat) | ThiefLoadSlot(i: nat) | ThiefCas(i: nat)

  function Init(thieves: nat): State {
    State(0, Mem(0, 0, [seq(Pow2(INITIAL_LOG2_CAP), _ => None)]), [], Idle, seq(thieves, _ => Out),
          [], multiset{}, multiset{}, [], 0, 0)
  }

  // ---------------------------------------------------------------- memory

  function CapOf(m: Mem, a: nat): nat {
    if a < |m.arrays| then |m.arrays[a]| else 0
  }

  /** The entry at index `i` of array `a`; null when there is no such entry. */
  function At(m: Mem, a: nat, i: int): Slot {
    if CapOf(m, a) > 0 && i >= 0 then Get(m.arrays[a], i) else None
  }

  function Apply(m: Mem, st: Store): Mem {
    match st
    case Alloc(cap) => m.(arrays := m.arrays + [seq(cap, _ => None)])
    case PutSlot(a, i, p) =>
      if CapOf(m, a) > 0 && i >= 0 then m.(arrays := m.arrays[a := Put(m.arrays[a], i, p)]) else m
    case SetArray(a) => m.(cur := a)
    case SetBot(b) => m.(bot := b)
  }

  /** Memory now, and after each further store of the buffer has drained. */
  function Versions(m: Mem, buf: seq<Store>): (vs: seq<Mem>)
    ensures |vs| == |buf| + 1
    decreases |buf|
  {
    if buf == [] then [m] else [m] + Versions(Apply(m, buf[0]), buf[1..])
  }

  /** Memory as the owner sees it: through its own store buffer. */
  function View(s: State): Mem {
    Last(Versions(s.mem, s.buf))
  }

  /** The tasks in the deque, oldest first. */
  function Content(s: State): seq<Task> {
    if 0 <= s.top <= |s.log| then s.log[s.top..] else []
  }

  /** Linearized but not yet returned to the owner's caller. */
  function Claimed(s: State): multiset<Task> {
    match s.owner
    case PopTake(_, _, claim) => multiset{claim}
    case PopRestore(_, r) => Held(r)
    case _ => multiset{}
  }

  // ---------------------------------------------------------------- steps

  predicate Enabled(s: State, step: Step) {
    match step
    case Drain => s.buf != []
    case PushLoadBot(_) => s.owner.Idle?
    case PushLoadTop => s.owner.PushGotBot?
    case PushLoadArray => s.owner.PushGotTop?
    case GrowPut => s.owner.GrowCopy? && s.owner.i < s.owner.b
    case GrowInstall => s.owner.GrowCopy? && s.owner.i >= s.owner.b
    case PushStoreSlot => s.owner.PushPut?
    case PushStoreBot => s.owner.PushPublish?
    case PopLoadBot => s.owner.Idle?
    case PopLoadArray => s.owner.PopGotBot?
    case PopStoreBot => s.owner.PopGotArray?
    case PopLoadTop => s.owner.PopStored? && s.buf == []
    case PopReadTaken => s.owner.PopTake?
    case PopReadRaced => s.owner.PopRace?
    case PopRaceCas => s.owner.PopCas? && s.buf == []
    case PopRestoreBot => s.owner.PopRestore?
    case ThiefLoadTop(i) => i < |s.thieves| && s.thieves[i].Out?
    case ThiefLoadBot(i) => i < |s.thieves| && s.thieves[i].GotTop?
    case ThiefLoadArray(i) => i < |s.thieves| && s.thieves[i].GotBot?
    case ThiefLoadSlot(i) => i < |s.thieves| && s.thieves[i].GotArray?
    case ThiefCas(i) => i < |s.thieves| && s.thieves[i].GotSlot?
  }

  function Do(s: State, step: Step): State
    requires Enabled(s, step)
  {
    match step
    case Drain => s.(mem := Apply(s.mem, s.buf[0]), buf := s.buf[1..])
    case PushLoadBot(x) => s.(owner := PushGotBot(x, View(s).bot))
    case PushLoadTop => s.(owner := PushGotTop(s.owner.x, s.owner.b, s.top))
    case PushLoadArray => DoPushLoadArray(s)
    case GrowPut => DoGrowPut(s)
    case GrowInstall =>
      Issue(s, SetArray(s.owner.next)).(owner := PushPut(s.owner.x, s.owner.b, s.owner.next))
    case PushStoreSlot =>
      Issue(s, PutSlot(s.owner.a, s.owner.b, Some(s.owner.x)))
      .(owner := PushPublish(s.owner.x, s.owner.b, s.owner.a))
    case PushStoreBot => DoPushStoreBot(s)
    case PopLoadBot => s.(owner := PopGotBot(View(s).bot - 1))
    case PopLoadArray => s.(owner := PopGotArray(s.owner.b, View(s).cur))
    case PopStoreBot => Issue(s, SetBot(s.owner.b)).(owner := PopStored(s.owner.b, s.owner.a))
    case PopLoadTop => DoPopLoadTop(s)
    case PopReadTaken =>
      s.(owner := Idle, returned := s.returned + Held(At(View(s), s.owner.a, s.owner.b)))
    case PopReadRaced => s.(owner := PopCas(s.owner.b, At(View(s), s.owner.a, s.owner.b)))
    case PopRaceCas => DoPopRaceCas(s)
    case PopRestoreBot =>
      Issue(s, SetBot(s.owner.b + 1)).(owner := Idle, returned := s.returned + Held(s.owner.r))
    case ThiefLoadTop(i) => s.(thieves := s.thieves[i := GotTop(s.top)])
    case ThiefLoadBot(i) =>
      var t := s.thieves[i].t;
      s.(thieves := s.thieves[i := if t >= s.mem.bot then Out else GotBot(t)])
    case ThiefLoadArray(i) => s.(thieves := s.thieves[i := GotArray(s.thieves[i].t, s.mem.cur)])
    case ThiefLoadSlot(i) =>
      s.(thieves := s.thieves[i := GotSlot(s.thieves[i].t, At(s.mem, s.thieves[i].a, s.thieves[i].t))])
    case ThiefCas(i) => DoThiefCas(s, i)
  }

  /** The owner issues a plain store. */
  function Issue(s: State, st: Store): State {
    s.(buf := s.buf + [st])
  }

  /** Loads `array_`; when the ring looks full, allocates one of twice the capacity. */
  function DoPushLoadArray(s: State): State
    requires s.owner.PushGotTop?
  {
    var a := View(s).cur;
    var cap := CapOf(View(s), a);
    var PushGotTop(x, b, t) := s.owner;
    if b - t >= cap - 1 then
      Issue(s, Alloc(2 * cap)).(owner := GrowCopy(x, b, t, a, |View(s).arrays|, t))
    else
      s.(owner := PushPut(x, b, a))
  }

  /** One iteration of the copying loop of `grow`. */
  function DoGrowPut(s: State): State
    requires s.owner.GrowCopy?
  {
    var GrowCopy(x, b, t, a, next, i) := s.owner;
    Issue(s, PutSlot(next, i, At(View(s), a, i)))
    .(owner := GrowCopy(x, b, t, a, next, i + 1), copied := s.copied + 1)
  }

  function DoPushStoreBot(s: State): State
    requires s.owner.PushPublish?
  {
    var PushPublish(x, b, _) := s.owner;
    Issue(s, SetBot(b + 1))
    .(owner := Idle, log := s.log + [x], pushed := s.pushed + multiset{x}, peak := Max(s.peak, |s.log| + 1 - s.top))
  }

  /** Pop behind its fence: an empty deque, a task no thief can reach any more, or the last task. */
  function DoPopLoadTop(s: State): State
    requires s.owner.PopStored?
  {
    var PopStored(b, a) := s.owner;
    if s.top > b then s.(owner := PopRestore(b, None))
    else if s.top == b then s.(owner := PopRace(b, a))
    else if 0 <= b < |s.log| then s.(owner := PopTake(b, a, s.log[b]), log := s.log[..b])
    else s.(owner := PopTake(b, a, 0))  // never the case: see DequeInvariant.OwnerOk
  }

  function DoPopRaceCas(s: State): State
    requires s.owner.PopCas?
  {
    var PopCas(b, raw) := s.owner;
    if s.top == b then s.(top := b + 1, owner := PopRestore(b, raw), winners := s.winners + [Owner])
    else s.(owner := PopRestore(b, None))
  }

  function DoThiefCas(s: State, i: nat): State
    requires i < |s.thieves| && s.thieves[i].GotSlot?
  {
    var GotSlot(t, raw) := s.thieves[i];
    var out := s.(thieves := s.thieves[i := Out]);
    if s.top == t then
      out.(top := t + 1, returned := s.returned + Held(raw), winners := s.winners + [Thief(i)])
    else out
  }
}
