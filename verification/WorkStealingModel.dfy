/**
 * The work-stealing scheduler as a transition system over real Chase-Lev deques (store buffers
 * included): every step of the scheduler makes at most one access of its own or one deque step.
 * The scheduler's own atomics (`pending_`, `shutdown_`) are sequentially consistent; starting and
 * joining a thread drains its store buffer.
 */
module WorkStealingModel {
  import opened Wrappers
  import opened BagScheduler
  import D = DequeModel

  datatype WorkerPc =
    | AtTop                                   // about to pop its own deque
    | Popping
    | Running(t: Task)
    | Submitting(t: Task, x: Task)            // has counted `x` in `pending_`, is pushing it
    | CheckPending
    | CheckShutdown
    | Sweeping(start: nat, attempt: nat)
    | Stealing(start: nat, attempt: nat)
    | Exited

  datatype MainPc =
    | Building                                // before `run`
    | Draining(i: nat)                        // moving the injection queue into deque 0
    | Waiting
    | Stopping                                // has read `pending_ == 0`
    | Joining
    | Returned

  /** `bag` is a history: the bag scheduler's state after the labels so far. */
  datatype Ws = Ws(
    main: MainPc, inject: seq<Task>, deques: seq<D.State>, workers: seq<WorkerPc>,
    pending: int, shutdown: bool, bag: Bag)

  datatype WsStep =
    | SubmitExternal(x: Task) | CallRun | MainOwnerStep(st: D.Step) | LaunchWorkers
    | SeeTasksPending | SeePendingZero | StoreShutdown | JoinAll | ClearWorkers
    | DrainBuffer(v: nat)
    | OwnerStep(w: nat, st: D.Step) | SubmitChild(w: nat, x: Task) | FinishTask(w: nat)
    | LoadPending(w: nat) | LoadShutdown(w: nat, r: nat)
    | StartSteal(w: nat) | ThiefStep(w: nat, st: D.Step) | GiveUpSweep(w: nat)

  function Init(n: nat): Ws {
    Ws(Building, [], seq(n, _ => D.Init(n)), seq(n, _ => AtTop), 0, false, EMPTY_BAG)
  }

  // ---------------------------------------------------------------- victims

  /** The random start of a sweep: any other worker, for a draw `r` below `n - 1`. */
  function StartVictim(id: nat, n: nat, r: nat): nat
    requires n > 1
  {
    var start := r % (n - 1);
    if start >= id then start + 1 else start
  }

  /** The victim of an attempt: the next worker around, stepping over oneself. */
  function Victim(id: nat, n: nat, start: nat, attempt: nat): nat
    requires n > 0
  {
    var v := (start + attempt) % n;
    if v == id then (v + 1) % n else v
  }

  // ---------------------------------------------------------------- deque steps and who makes them

  predicate IsOwnerStep(st: D.Step) {
    !st.Drain? && !IsThiefStep(st)
  }

  predicate IsThiefStep(st: D.Step) {
    st.ThiefLoadTop? || st.ThiefLoadBot? || st.ThiefLoadArray? || st.ThiefLoadSlot? || st.ThiefCas?
  }

  /** The result handed to the caller when a deque step completes a pop. */
  function PopResult(s: D.State, st: D.Step): Option<Task>
  {
    if st.PopReadTaken? && s.owner.PopTake? then D.At(D.View(s), s.owner.a, s.owner.b)
    else if st.PopRestoreBot? && s.owner.PopRestore? then s.owner.r
    else None
  }

  /** The owner's call: a worker between calls starts only the call its own loop is at. */
  predicate MayCall(pc: WorkerPc, st: D.Step) {
    match pc
    case AtTop => st.PopLoadBot?
    case Submitting(_, x) => st == D.PushLoadBot(x)
    case _ => false
  }

  predicate Launched(s: Ws) {
    !s.main.Building? && !s.main.Draining?
  }

  predicate Worker(s: Ws, w: nat) {
    Launched(s) && w < |s.workers| == |s.deques|
  }

  function VictimOf(s: Ws, w: nat): nat
    requires w < |s.workers| && |s.workers| > 0
    requires s.workers[w].Sweeping? || s.workers[w].Stealing?
  {
    Victim(w, |s.workers|, s.workers[w].start, s.workers[w].attempt)
  }

  predicate Enabled(s: Ws, step: WsStep) {
    match step
    case SubmitExternal(x) => s.main.Building? && Unseen(s.bag, x)
    case CallRun => s.main.Building?
    case MainOwnerStep(st) =>
      && s.main.Draining? && s.main.i < |s.inject| && s.deques != [] && IsOwnerStep(st) && D.Enabled(s.deques[0], st)
      && (s.deques[0].owner.Idle? ==> st == D.PushLoadBot(s.inject[s.main.i]))
    case LaunchWorkers =>
      s.main.Draining? && s.main.i >= |s.inject| && forall v | 0 <= v < |s.deques| :: s.deques[v].buf == []
    case SeeTasksPending => s.main.Waiting? && s.pending > 0
    case SeePendingZero => s.main.Waiting? && s.pending <= 0
    case StoreShutdown => s.main.Stopping?
    case JoinAll =>
      && s.main.Joining? && (forall w | 0 <= w < |s.workers| :: s.workers[w].Exited?)
      && forall v | 0 <= v < |s.deques| :: s.deques[v].buf == []
    case ClearWorkers => s.main.Returned?
    case DrainBuffer(v) => v < |s.deques| && D.Enabled(s.deques[v], D.Drain)
    case OwnerStep(w, st) =>
      && Worker(s, w) && IsOwnerStep(st) && D.Enabled(s.deques[w], st)
      && if s.deques[w].owner.Idle? then MayCall(s.workers[w], st)
         else s.workers[w].Popping? || s.workers[w].Submitting?
    case SubmitChild(w, x) => Worker(s, w) && s.workers[w].Running? && Unseen(s.bag, x)
    case FinishTask(w) => Worker(s, w) && s.workers[w].Running?
    case LoadPending(w) => Worker(s, w) && s.workers[w].CheckPending?
    case LoadShutdown(w, _) => Worker(s, w) && s.workers[w].CheckShutdown?
    case StartSteal(w) =>
      && Worker(s, w) && s.workers[w].Sweeping? && s.workers[w].attempt + 1 < |s.workers|
      && D.Enabled(s.deques[VictimOf(s, w)], D.ThiefLoadTop(w))
    case ThiefStep(w, st) =>
      && Worker(s, w) && s.workers[w].Stealing? && IsThiefStep(st) && st.i == w && !st.ThiefLoadTop?
      && D.Enabled(s.deques[VictimOf(s, w)], st)
    case GiveUpSweep(w) => Worker(s, w) && s.workers[w].Sweeping? && s.workers[w].attempt + 1 >= |s.workers|
  }

  // ---------------------------------------------------------------- effects

  function OnDeque(s: Ws, v: nat, st: D.Step): Ws
    requires v < |s.deques| && D.Enabled(s.deques[v], st)
  {
    s.(deques := s.deques[v := D.Do(s.deques[v], st)])
  }

  /** Where a worker goes when an owner step leaves its deque in state `after`. */
  function AfterOwnerStep(pc: WorkerPc, before: D.State, st: D.Step, after: D.State): WorkerPc {
    if pc.AtTop? then Popping
    else if !after.owner.Idle? || before.owner.Idle? then pc
    else if pc.Submitting? then Running(pc.t)
    else if PopResult(before, st).Some? then Running(PopResult(before, st).value)
    else CheckPending
  }

  /** Where a thief goes after a step of its steal. */
  function AfterThiefStep(pc: WorkerPc, before: D.State, st: D.Step, after: D.State): WorkerPc
    requires pc.Stealing? && IsThiefStep(st) && st.i < |before.thieves| && st.i < |after.thieves|
  {
    var thief := before.thieves[st.i];
    if !after.thieves[st.i].Out? then pc
    else if st.ThiefCas? && thief.GotSlot? && before.top == thief.t && thief.raw.Some? then Running(thief.raw.value)
    else Sweeping(pc.start, pc.attempt + 1)
  }

  /** What the client and the bag see of a step. */
  function LabelOf(s: Ws, step: WsStep): Label
    requires Enabled(s, step)
  {
    match step
    case SubmitExternal(x) => Submit(None, x)
    case CallRun => Launch
    case JoinAll => Return
    case ClearWorkers => Reuse
    case OwnerStep(w, st) =>
      var pc := AfterOwnerStep(s.workers[w], s.deques[w], st, D.Do(s.deques[w], st));
      if s.workers[w].Popping? && pc.Running? then Start(pc.t) else Tau
    case ThiefStep(w, st) =>
      var v := VictimOf(s, w);
      var pc := AfterThiefStep(s.workers[w], s.deques[v], st, D.Do(s.deques[v], st));
      if pc.Running? then Start(pc.t) else Tau
    case SubmitChild(w, x) => Submit(Some(s.workers[w].t), x)
    case FinishTask(w) => Finish(s.workers[w].t)
    case _ => Tau
  }

  function Do(s: Ws, step: WsStep): Ws
    requires Enabled(s, step)
  {
    Act(s, step).(bag := After(s.bag, LabelOf(s, step)))
  }

  /** The step itself; the history `bag` is left alone. */
  function Act(s: Ws, step: WsStep): Ws
    requires Enabled(s, step)
  {
    match step
    case SubmitExternal(x) => s.(pending := s.pending + 1, inject := s.inject + [x])
    case CallRun => s.(main := Draining(0), shutdown := false)
    case MainOwnerStep(st) =>
      OnDeque(s, 0, st).(main := if st.PushStoreBot? then Draining(s.main.i + 1) else s.main)
    case LaunchWorkers => s.(main := Waiting, inject := [])
    case SeeTasksPending => s
    case SeePendingZero => s.(main := Stopping)
    case StoreShutdown => s.(main := Joining, shutdown := true)
    case JoinAll => s.(main := Returned)
    case ClearWorkers =>
      s.(main := Building, inject := [],
         deques := seq(|s.deques|, _ => D.Init(|s.deques|)), workers := seq(|s.workers|, _ => AtTop))
    case DrainBuffer(v) => OnDeque(s, v, D.Drain)
    case OwnerStep(w, st) =>
      var s' := OnDeque(s, w, st);
      s'.(workers := s.workers[w := AfterOwnerStep(s.workers[w], s.deques[w], st, s'.deques[w])])
    case SubmitChild(w, x) =>
      s.(pending := s.pending + 1, workers := s.workers[w := Submitting(s.workers[w].t, x)])
    case FinishTask(w) =>
      s.(pending := s.pending - 1, workers := s.workers[w := if s.pending == 1 then Exited else AtTop])
    case LoadPending(w) => s.(workers := s.workers[w := if s.pending == 0 then Exited else CheckShutdown])
    case LoadShutdown(w, r) =>
      s.(workers := s.workers[w :=
        if s.shutdown then Exited
        else if |s.workers| > 1 then Sweeping(StartVictim(w, |s.workers|, r), 0)
        else AtTop])
    case StartSteal(w) =>
      OnDeque(s, VictimOf(s, w), D.ThiefLoadTop(w))
      .(workers := s.workers[w := Stealing(s.workers[w].start, s.workers[w].attempt)])
    case ThiefStep(w, st) =>
      var v := VictimOf(s, w);
      var s' := OnDeque(s, v, st);
      s'.(workers := s.workers[w := AfterThiefStep(s.workers[w], s.deques[v], st, s'.deques[v])])
    case GiveUpSweep(w) => s.(workers := s.workers[w := AtTop])
  }

  ghost predicate Reaches(s: Ws, steps: seq<WsStep>, s': Ws)
    decreases |steps|
  {
    if steps == [] then s == s' else Enabled(s, steps[0]) && Reaches(Do(s, steps[0]), steps[1..], s')
  }
}
