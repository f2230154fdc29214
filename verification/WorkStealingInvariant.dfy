/** The inductive invariant of the work-stealing scheduler, deque internals included. */
module WorkStealingInvariant {
  import opened Wrappers
  import opened Multisets
  import opened WorkStealingModel
  import D = DequeModel
  import I = DequeInvariant
  import R = DequeRefinement

  /** The tasks a deque still owes: in it, or popped but not yet returned. */
  function Owed(s: D.State): multiset<Task> {
    multiset(D.Content(s)) + D.Claimed(s)
  }

  /** A task counted in `pending_` whose push has not taken effect yet. */
  function BeingPushed(pc: WorkerPc): multiset<Task> {
    if pc.Submitting? then multiset{pc.x} else multiset{}
  }

  function InHand(pc: WorkerPc): multiset<Task> {
    if pc.Running? || pc.Submitting? then multiset{pc.t} else multiset{}
  }

  function Loads(s: Ws): seq<multiset<Task>>
    requires |s.workers| == |s.deques|
  {
    seq(|s.deques|, v requires 0 <= v < |s.deques| => Owed(s.deques[v]) + BeingPushed(s.workers[v]))
  }

  function Hands(s: Ws): seq<multiset<Task>> {
    seq(|s.workers|, w requires 0 <= w < |s.workers| => InHand(s.workers[w]))
  }

  /** The injection queue, less what has been moved into deque 0. */
  function Injected(s: Ws): multiset<Task> {
    match s.main
    case Building => multiset(s.inject)
    case Draining(i) => if i <= |s.inject| then multiset(s.inject[i..]) else multiset{}
    case _ => multiset{}
  }

  /** One deque a worker, with room for every worker as a thief. */
  ghost predicate Sizes(s: Ws) {
    && |s.workers| == |s.deques| >= 1
    && forall v | 0 <= v < |s.deques| :: |s.deques[v].thieves| == |s.deques|
  }

  ghost predicate DequesOk(s: Ws) {
    forall v | 0 <= v < |s.deques| :: I.Inv(s.deques[v])
  }

  /** The call a worker's loop is in is the call its deque is in. */
  predicate PcMatches(pc: WorkerPc, call: R.AtomicCall) {
    match pc
    case Popping => call.Popping? || call.Popped?
    case Submitting(_, x) => call.NoCall? || call == R.Pushing(x)
    case _ => call.NoCall?
  }

  function CallAt(s: Ws, v: nat): R.AtomicCall
    requires v < |s.deques|
  {
    R.OwnerCall(s.deques[v].owner)
  }

  /** Before the launch only `run` is an owner, of deque 0, pushing the injected task it is at. */
  predicate DriverMatches(s: Ws, v: nat, call: R.AtomicCall) {
    call.NoCall? || (v == 0 && s.main.Draining? && s.main.i < |s.inject| && call == R.Pushing(s.inject[s.main.i]))
  }

  /** The owner of a deque is in just the call its worker (or, before the launch, `run`) is making. */
  ghost predicate OwnerMatches(s: Ws, v: nat)
    requires v < |s.workers| == |s.deques|
  {
    if Launched(s) then PcMatches(s.workers[v], CallAt(s, v))
    else s.workers[v].AtTop? && DriverMatches(s, v, CallAt(s, v))
  }

  /** Worker `w` is in a steal on the deque of `v` exactly when its loop says so. */
  ghost predicate ThiefMatches(s: Ws, v: nat, w: nat)
    requires v < |s.deques| && |s.deques[v].thieves| == |s.deques| == |s.workers| && w < |s.workers|
  {
    !s.deques[v].thieves[w].Out? <==> s.workers[w].Stealing? && VictimOf(s, w) == v
  }

  /** No worker ever aims at its own deque. */
  ghost predicate SweepOk(pc: WorkerPc, w: nat, n: nat) {
    pc.Sweeping? || pc.Stealing? ==> n > 1 && w < n && Victim(w, n, pc.start, pc.attempt) != w
  }

  ghost predicate CallsMatch(s: Ws)
    requires Sizes(s)
  {
    && (forall v | 0 <= v < |s.deques| :: OwnerMatches(s, v))
    && (forall v, w | 0 <= v < |s.deques| && 0 <= w < |s.workers| :: ThiefMatches(s, v, w))
    && (forall w | 0 <= w < |s.workers| :: SweepOk(s.workers[w], w, |s.workers|))
  }

  /** Every unfinished task is in exactly one place, and `pending_` counts them. */
  ghost predicate TasksOk(s: Ws)
    requires |s.workers| == |s.deques|
  {
    && multiset(s.bag.queued) == Injected(s) + Sum(Loads(s))
    && multiset(s.bag.running) == Sum(Hands(s))
    && s.bag.queued !! s.bag.running && s.bag.queued !! s.bag.done && s.bag.running !! s.bag.done
    && s.pending == |s.bag.queued| + |s.bag.running|
  }

  ghost predicate Quiescent(s: Ws) {
    s.bag.queued == {} && s.bag.running == {}
  }

  /** Nobody believes the work is over before it is; after the launch it then stays over. */
  ghost predicate EndOk(s: Ws) {
    && (s.main.Draining? ==> s.main.i <= |s.inject|)
    && (s.main.Draining? || s.main.Waiting? || s.main.Stopping? ==> !s.shutdown)
    && (s.main.Stopping? || s.main.Joining? || s.main.Returned? ==> Quiescent(s))
    && (s.main.Joining? || s.main.Returned? ==> s.shutdown)
    && (Launched(s) && s.shutdown ==> Quiescent(s))
    && (forall w | 0 <= w < |s.workers| && s.workers[w].Exited? :: Quiescent(s))
    && s.bag.launched == !s.main.Building?
    && s.bag.returned == s.main.Returned?
    && (s.main.Returned? ==> forall w | 0 <= w < |s.workers| :: s.workers[w].Exited?)
    && (s.main.Returned? ==> forall v | 0 <= v < |s.deques| :: s.deques[v].buf == [])
  }

  /** Everything but the inside of the deques. */
  ghost predicate SchedulerOk(s: Ws) {
    Sizes(s) && CallsMatch(s) && TasksOk(s) && EndOk(s)
  }

  ghost predicate Inv(s: Ws) {
    DequesOk(s) && SchedulerOk(s)
  }
}
