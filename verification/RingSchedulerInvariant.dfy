/** The inductive invariant of the ring scheduler, the ring included. */
module RingSchedulerInvariant {
  import opened Wrappers
  import opened Multisets
  import opened RingScheduler
  import R = RingModel
  import I = RingInvariant

  /** What a consumer has claimed but not yet returned. */
  function Claim(ring: R.Ring, pc: R.ConsumerPc): multiset<Task> {
    match pc
    case Won(pos) => if pos < |ring.tickets| then multiset{ring.tickets[pos]} else multiset{}
    case Took(_, raw) => Held(raw)
    case _ => multiset{}
  }

  function Claims(ring: R.Ring): seq<multiset<Task>> {
    seq(|ring.consumers|, c requires 0 <= c < |ring.consumers| => Claim(ring, ring.consumers[c]))
  }

  function Unclaimed(ring: R.Ring): seq<Task> {
    if ring.tail <= |ring.tickets| then ring.tickets[ring.tail..] else []
  }

  /** The tasks the ring still owes. */
  function Owed(ring: R.Ring): multiset<Task> {
    multiset(Unclaimed(ring)) + Sum(Claims(ring))
  }

  /** A task counted in `pending_` that has no ticket yet. */
  function Unticketed(pc: WorkerPc, producer: R.ProducerPc): multiset<Task> {
    if pc.Submitting? && producer.PIdle? then multiset{pc.x} else multiset{}
  }

  function MainUnticketed(s: Rs): multiset<Task> {
    if s.main.Enqueuing? && |s.workers| < |s.ring.producers| && s.ring.producers[|s.workers|].PIdle?
    then multiset{s.main.x} else multiset{}
  }

  function InHand(pc: WorkerPc): multiset<Task> {
    if pc.Running? || pc.Submitting? then multiset{pc.t} else multiset{}
  }

  function Waits(s: Rs): seq<multiset<Task>>
    requires |s.ring.producers| == |s.workers| + 1
  {
    seq(|s.workers|, w requires 0 <= w < |s.workers| => Unticketed(s.workers[w], s.ring.producers[w]))
  }

  function Hands(s: Rs): seq<multiset<Task>> {
    seq(|s.workers|, w requires 0 <= w < |s.workers| => InHand(s.workers[w]))
  }

  ghost predicate Sizes(s: Rs) {
    |s.ring.consumers| == |s.workers| && |s.ring.producers| == |s.workers| + 1
  }

  /** A producer works exactly for the submit its thread is in, a consumer for its thread's dequeue. */
  ghost predicate CallOk(s: Rs, w: nat)
    requires Sizes(s) && w < |s.workers|
  {
    && (!s.ring.producers[w].PIdle? ==> s.workers[w].Submitting? && s.ring.producers[w].x == s.workers[w].x)
    && (s.ring.consumers[w].CIdle? <==> !s.workers[w].Dequeuing?)
    && (!Launched(s) ==> s.workers[w].AtTop?)
  }

  ghost predicate CallsMatch(s: Rs)
    requires Sizes(s)
  {
    && (forall w | 0 <= w < |s.workers| :: CallOk(s, w))
    && (!s.ring.producers[|s.workers|].PIdle? ==> s.main.Enqueuing? && s.ring.producers[|s.workers|].x == s.main.x)
  }

  /** Every unfinished task is in exactly one place, and `pending_` counts them. */
  ghost predicate TasksOk(s: Rs)
    requires Sizes(s)
  {
    && multiset(s.bag.queued) == Owed(s.ring) + Sum(Waits(s)) + MainUnticketed(s)
    && multiset(s.bag.running) == Sum(Hands(s))
    && s.bag.queued !! s.bag.running && s.bag.queued !! s.bag.done && s.bag.running !! s.bag.done
    && s.pending == |s.bag.queued| + |s.bag.running|
  }

  ghost predicate Quiescent(s: Rs) {
    s.bag.queued == {} && s.bag.running == {}
  }

  ghost predicate EndOk(s: Rs) {
    && (s.main.Waiting? || s.main.Stopping? ==> !s.shutdown)
    && (s.main.Joining? ==> s.shutdown)
    && (s.main.Stopping? || s.main.Joining? || s.main.Returned? ==> Quiescent(s))
    && (Launched(s) && s.shutdown ==> Quiescent(s))
    && (forall w | 0 <= w < |s.workers| && s.workers[w].Exited? :: s.shutdown && Launched(s))
    && s.bag.launched == Launched(s)
    && s.bag.returned == s.main.Returned?
    && (s.main.Returned? ==> forall w | 0 <= w < |s.workers| :: s.workers[w].Exited?)
  }

  ghost predicate SchedulerOk(s: Rs) {
    Sizes(s) && CallsMatch(s) && TasksOk(s) && EndOk(s)
  }

  ghost predicate Inv(s: Rs) {
    I.Inv(s.ring) && SchedulerOk(s)
  }
}
