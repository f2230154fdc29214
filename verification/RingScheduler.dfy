/**
 * The ring scheduler as a transition system over the real ring: every step makes one access of the
 * scheduler's own atomics or one step of the ring.  Worker `w` is producer and consumer number `w` of the
 * ring; the thread that builds and calls `run` is producer number `n`.
 */
module RingScheduler {
  import opened Wrappers
  import opened BagScheduler
  import R = RingModel

  datatype WorkerPc =
    | AtTop
    | Dequeuing
    | Running(t: Task)
    | Submitting(t: Task, x: Task)
    | CheckShutdown
    | Exited

  datatype MainPc =
    | Building
    | Enqueuing(x: Task)
    | Waiting
    | Stopping
    | Joining
    | Returned

  /** `bag` is a history: the bag scheduler's state after the labels so far. */
  datatype Rs = Rs(main: MainPc, ring: R.Ring, workers: seq<WorkerPc>, pending: int, shutdown: bool, bag: Bag)

  datatype RsStep =
    | SubmitExternal(x: Task) | MainProducerStep(st: R.RingStep) | CallRun
    | SeeTasksPending | SeePendingZero | StoreShutdown | JoinAll | Rest
    | StartDequeue(w: nat) | ConsumerStep(w: nat, st: R.RingStep)
    | SubmitChild(w: nat, x: Task) | ProducerStep(w: nat, st: R.RingStep) | FinishTask(w: nat) | LoadShutdown(w: nat)

  function Init(size: nat, n: nat): Rs {
    Rs(Building, R.Init(size, n + 1, n), seq(n, _ => AtTop), 0, false, EMPTY_BAG)
  }

  /** Steps of producer `i`; an idle one may only reserve a ticket for the task `x` being submitted. */
  predicate ProducerMay(ring: R.Ring, i: nat, x: Task, st: R.RingStep) {
    && R.Enabled(ring, st)
    && match st
       case Reserve(k, y) => k == i && y == x
       case Await(k) => k == i
       case StorePayload(k) => k == i
       case Publish(k) => k == i
       case _ => false
  }

  predicate ConsumerMay(ring: R.Ring, c: nat, st: R.RingStep) {
    && R.Enabled(ring, st)
    && match st
       case LoadTail(k) => k == c
       case LoadSequence(k) => k == c
       case CasTail(k, _) => k == c
       case Exchange(k) => k == c
       case Release(k) => k == c
       case _ => false
  }

  predicate Launched(s: Rs) {
    !s.main.Building? && !s.main.Enqueuing?
  }

  predicate Worker(s: Rs, w: nat) {
    Launched(s) && w < |s.workers| && |s.ring.consumers| == |s.workers| && |s.ring.producers| == |s.workers| + 1
  }

  predicate Enabled(s: Rs, step: RsStep) {
    match step
    case SubmitExternal(x) => s.main.Building? && Unseen(s.bag, x)
    case MainProducerStep(st) => s.main.Enqueuing? && ProducerMay(s.ring, |s.workers|, s.main.x, st)
    case CallRun => s.main.Building?
    case SeeTasksPending => s.main.Waiting? && s.pending > 0
    case SeePendingZero => s.main.Waiting? && s.pending <= 0
    case StoreShutdown => s.main.Stopping?
    case JoinAll => s.main.Joining? && forall w | 0 <= w < |s.workers| :: s.workers[w].Exited?
    case Rest => s.main.Returned?
    case StartDequeue(w) => Worker(s, w) && s.workers[w].AtTop? && R.Enabled(s.ring, R.StartDequeue(w))
    case ConsumerStep(w, st) => Worker(s, w) && s.workers[w].Dequeuing? && ConsumerMay(s.ring, w, st)
    case SubmitChild(w, x) => Worker(s, w) && s.workers[w].Running? && Unseen(s.bag, x)
    case ProducerStep(w, st) => Worker(s, w) && s.workers[w].Submitting? && ProducerMay(s.ring, w, s.workers[w].x, st)
    case FinishTask(w) => Worker(s, w) && s.workers[w].Running?
    case LoadShutdown(w) => Worker(s, w) && s.workers[w].CheckShutdown?
  }

  /** Where a worker goes when its dequeue makes a step. */
  function AfterConsumerStep(ring: R.Ring, w: nat, st: R.RingStep, ring': R.Ring): WorkerPc
    requires w < |ring.consumers| && w < |ring'.consumers|
  {
    if !ring'.consumers[w].CIdle? then Dequeuing
    else if ring.consumers[w].Took? && ring.consumers[w].raw.Some? then Running(ring.consumers[w].raw.value)
    else CheckShutdown
  }

  function LabelOf(s: Rs, step: RsStep): Label
    requires Enabled(s, step)
  {
    match step
    case SubmitExternal(x) => Submit(None, x)
    case CallRun => Launch
    case JoinAll => Return
    case Rest => Reuse
    case ConsumerStep(w, st) =>
      var pc := AfterConsumerStep(s.ring, w, st, R.Do(s.ring, st));
      if pc.Running? then Start(pc.t) else Tau
    case SubmitChild(w, x) => Submit(Some(s.workers[w].t), x)
    case FinishTask(w) => Finish(s.workers[w].t)
    case _ => Tau
  }

  function Do(s: Rs, step: RsStep): Rs
    requires Enabled(s, step)
  {
    Act(s, step).(bag := After(s.bag, LabelOf(s, step)))
  }

  /** The step itself; the history `bag` is left alone. */
  function Act(s: Rs, step: RsStep): Rs
    requires Enabled(s, step)
  {
    match step
    case SubmitExternal(x) => s.(pending := s.pending + 1, main := Enqueuing(x))
    case MainProducerStep(st) => s.(ring := R.Do(s.ring, st), main := if st.Publish? then Building else s.main)
    case CallRun => s.(main := Waiting, shutdown := false)
    case SeeTasksPending => s
    case SeePendingZero => s.(main := Stopping)
    case StoreShutdown => s.(main := Joining, shutdown := true)
    case JoinAll => s.(main := Returned)
    case Rest => s.(main := Building, workers := seq(|s.workers|, _ => AtTop))
    case StartDequeue(w) => s.(ring := R.Do(s.ring, R.StartDequeue(w)), workers := s.workers[w := Dequeuing])
    case ConsumerStep(w, st) =>
      var ring' := R.Do(s.ring, st);
      s.(ring := ring', workers := s.workers[w := AfterConsumerStep(s.ring, w, st, ring')])
    case SubmitChild(w, x) =>
      s.(pending := s.pending + 1, workers := s.workers[w := Submitting(s.workers[w].t, x)])
    case ProducerStep(w, st) =>
      var pc := s.workers[w];
      s.(ring := R.Do(s.ring, st), workers := s.workers[w := if st.Publish? then Running(pc.t) else pc])
    case FinishTask(w) => s.(pending := s.pending - 1, workers := s.workers[w := AtTop])
    case LoadShutdown(w) => s.(workers := s.workers[w := if s.shutdown then Exited else AtTop])
  }

  ghost predicate Reaches(s: Rs, steps: seq<RsStep>, s': Rs)
    decreases |steps|
  {
    if steps == [] then s == s' else Enabled(s, steps[0]) && Reaches(Do(s, steps[0]), steps[1..], s')
  }
}
