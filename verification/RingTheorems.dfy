/** What holds of the ring in every run, with any number of producers and consumers. */
module RingTheorems {
  import opened Wrappers
  import opened RingModel
  import opened RingInvariant
  import opened RingSteps

  lemma {:induction false} RunKeepsInv(r: Ring, steps: seq<RingStep>, r': Ring)
    requires Inv(r) && Reaches(r, steps, r')
    ensures Inv(r')
    decreases |steps|
  {
    if steps != [] {
      StepKeepsInv(r, steps[0]);
      RunKeepsInv(Do(r, steps[0]), steps[1..], r');
    }
  }

  /** Some run of a ring of at least two slots leads here. */
  ghost predicate Reachable(r: Ring) {
    exists size: nat, producers: nat, consumers: nat, steps ::
      size >= 2 && Reaches(Init(size, producers, consumers), steps, r)
  }

  lemma ReachableHasInv(r: Ring)
    requires Reachable(r)
    ensures Inv(r)
  {
    var size: nat, producers: nat, consumers: nat, steps :|
      size >= 2 && Reaches(Init(size, producers, consumers), steps, r);
    InitHasInv(size, producers, consumers);
    RunKeepsInv(Init(size, producers, consumers), steps, r);
  }

  // ---------------------------------------------------------------- tickets

  /** Whatever was returned for a ticket is the very task enqueued under it; unclaimed tickets are untouched. */
  lemma ReturnsItsOwnTask(r: Ring, p: nat)
    requires Reachable(r) && p in r.returned
    ensures p < r.tail <= |r.tickets| && r.returned[p] == Some(r.tickets[p])
  {
    ReachableHasInv(r);
    assert Accounted(r, p);
    if Filled(r, p) {
    }
  }

  /** The ticket a dequeue is about to return was returned by nobody before it. */
  lemma NoTicketConsumedTwice(r: Ring, c: nat)
    requires Reachable(r) && Enabled(r, Release(c))
    ensures r.consumers[c].pos !in r.returned
    ensures r.consumers[c].pos < |r.tickets| && r.consumers[c].raw == Some(r.tickets[r.consumers[c].pos])
  {
    ReachableHasInv(r);
    assert ConsumerOk(r, r.consumers[c]);
    assert Accounted(r, r.consumers[c].pos);
  }

  /** A producer only ever stores into an empty slot, so no payload is overwritten before it is taken. */
  lemma NoPayloadOverwritten(r: Ring, i: nat)
    requires Reachable(r) && Enabled(r, StorePayload(i))
    ensures r.slots[Home(r, r.producers[i].pos)].payload == None
  {
    ReachableHasInv(r);
    assert ProducerOk(r, r.producers[i]);
  }

  /**
   * Once every thread is between calls: the claimed tickets are exactly those returned, and all others wait in
   * their slots.
   */
  lemma NothingLostAtRest(r: Ring)
    requires Reachable(r)
    requires forall i | 0 <= i < |r.producers| :: r.producers[i].PIdle?
    requires forall c | 0 <= c < |r.consumers| :: !Claiming(r.consumers[c])
    ensures r.slots != [] && r.tail <= r.head == |r.tickets|
    ensures forall p | 0 <= p < r.tail :: p in r.returned && r.returned[p] == Some(r.tickets[p])
    ensures forall p | r.tail <= p < r.head ::
      p !in r.returned && r.slots[Home(r, p)] == Cell(p + 1, Some(r.tickets[p]))
    ensures r.head - r.tail <= |r.slots|
  {
    ReachableHasInv(r);
    forall p | 0 <= p < r.head
      ensures if p < r.tail then p in r.returned && r.returned[p] == Some(r.tickets[p])
              else p !in r.returned && r.slots[Home(r, p)] == Cell(p + 1, Some(r.tickets[p])) && p < r.tail + |r.slots|
    {
      assert Accounted(r, p) && SlotOk(r, Home(r, p));
      if Released(r, p) {
        ReleasedIsClaimed(r, p);
      }
    }
    if r.tail < r.head {
      assert r.head - 1 !in r.returned;
    }
  }

  // ---------------------------------------------------------------- slots

  /** A waiting producer waits exactly while its slot's previous generation has not been released. */
  lemma WaitsForPreviousGeneration(r: Ring, i: nat)
    requires Reachable(r) && i < |r.producers| && r.producers[i].Reserved?
    ensures
      var pos, size := r.producers[i].pos, |r.slots|;
      size > 0 && |r.turn| == size
      && (r.slots[Home(r, pos)].sequence != pos <==> pos >= size && !Released(r, pos - size))
  {
    ReachableHasInv(r);
    var pos, size := r.producers[i].pos, |r.slots|;
    var j := Home(r, pos);
    assert ProducerOk(r, r.producers[i]) && SlotOk(r, j);
    var c := r.turn[j];
    if r.slots[j].sequence == pos {
      AwaitedSlotIsEmpty(r, i);
    }
    if c < pos {
      SameHomeIsFar(r, c, pos);
    }
    if pos >= size {
      HomeOfNextTurn(r, pos - size);
    }
  }

  /** A slot's sequence number only ever moves from `p` to `p + 1` and from `p + 1` to `p + size`. */
  lemma SequenceAdvances(r: Ring, step: RingStep, j: nat)
    requires Reachable(r) && Enabled(r, step) && j < |r.slots|
    ensures
      var before, after := r.slots[j].sequence, Do(r, step).slots[j].sequence;
      || after == before
      || (before % |r.slots| == j && after == before + 1 && step.Publish?)
      || (before >= 1 && (before - 1) % |r.slots| == j && after == before - 1 + |r.slots| && step.Release?)
  {
    ReachableHasInv(r);
    if step.Publish? {
      assert ProducerOk(r, r.producers[step.i]);
    } else if step.Release? {
      assert ConsumerOk(r, r.consumers[step.c]);
    }
  }

  predicate Inside(pc: ProducerPc) {
    pc.Ready? || pc.Written?
  }

  /** At most one thread is in the write or take section of a slot. */
  lemma OneThreadPerSlot(r: Ring)
    requires Reachable(r)
    ensures r.slots != []
    ensures forall i, k | 0 <= i < k < |r.producers| && Inside(r.producers[i]) && Inside(r.producers[k]) ::
      Home(r, r.producers[i].pos) != Home(r, r.producers[k].pos)
    ensures forall c, d | 0 <= c < d < |r.consumers| && Claiming(r.consumers[c]) && Claiming(r.consumers[d]) ::
      Home(r, r.consumers[c].pos) != Home(r, r.consumers[d].pos)
    ensures forall i, c | 0 <= i < |r.producers| && 0 <= c < |r.consumers|
                          && Inside(r.producers[i]) && Claiming(r.consumers[c]) ::
      Home(r, r.producers[i].pos) != Home(r, r.consumers[c].pos)
  {
    ReachableHasInv(r);
    assert forall i | 0 <= i < |r.producers| :: ProducerOk(r, r.producers[i]);
    assert forall c | 0 <= c < |r.consumers| :: ConsumerOk(r, r.consumers[c]);
  }

  // ---------------------------------------------------------------- dequeue

  /**
   * What a consumer learns from `diff`, however stale its ticket: negative means that at this load its
   * ticket is the next one and unpublished; zero that it is filled; positive that it has been released
   * already, so that reloading `tail_` yields a larger ticket.
   */
  lemma DiffMeans(r: Ring, c: nat)
    requires Reachable(r) && Enabled(r, LoadSequence(c))
    ensures
      var pos := r.consumers[c].pos;
      && |r.turn| == |r.slots|
      && (Diff(r, pos) < 0 <==> pos == r.tail && !Filled(r, pos))
      && (Diff(r, pos) == 0 <==> Filled(r, pos))
      && (Diff(r, pos) > 0 <==> Released(r, pos))
      && (Released(r, pos) ==> pos < r.tail)
  {
    ReachableHasInv(r);
    SignOfDiff(r, c);
  }

  lemma NegativeDiffMeans(r: Ring, c: nat)
    requires Inv(r) && Enabled(r, LoadSequence(c)) && Diff(r, r.consumers[c].pos) < 0
    ensures r.consumers[c].pos == r.tail && !Filled(r, r.tail)
  {
    SignOfDiff(r, c);
  }

  lemma SignOfDiff(r: Ring, c: nat)
    requires Inv(r) && Enabled(r, LoadSequence(c))
    ensures
      var pos := r.consumers[c].pos;
      && |r.turn| == |r.slots|
      && (Diff(r, pos) < 0 <==> pos == r.tail && !Filled(r, pos))
      && (Diff(r, pos) == 0 <==> Filled(r, pos))
      && (Diff(r, pos) > 0 <==> Released(r, pos))
      && (Released(r, pos) ==> pos < r.tail)
  {
    var pos := r.consumers[c].pos;
    assert ConsumerOk(r, r.consumers[c]) && SlotOk(r, Home(r, pos));
    if pos < r.tail {
      ClaimedIsFilledOrReleased(r, pos);
    }
    if Released(r, pos) {
      ReleasedIsClaimed(r, pos);
      SameHomeIsFar(r, pos, r.turn[Home(r, pos)]);
    }
    if Diff(r, pos) == 0 {
      ShownMeansFilled(r, pos);
    }
  }

  /** Every retry that is not spurious is paid for by another consumer's claim: the ticket has moved on. */
  lemma RetryMeansProgress(r: Ring, c: nat)
    requires Reachable(r) && c < |r.consumers|
    ensures Enabled(r, LoadSequence(c)) && Do(r, LoadSequence(c)).consumers[c].Reload? ==> r.consumers[c].pos < r.tail
    ensures Enabled(r, CasTail(c, false)) && Do(r, CasTail(c, false)).consumers[c].GotTail? ==>
      r.consumers[c].pos < r.tail
  {
    ReachableHasInv(r);
    assert ConsumerOk(r, r.consumers[c]);
    if Enabled(r, LoadSequence(c)) {
      DiffMeans(r, c);
    }
  }

  // ---------------------------------------------------------------- retries

  /** `c` has its dequeue open, with nothing claimed yet. */
  predicate Searches(r: Ring, c: nat) {
    c < |r.consumers| && !r.consumers[c].CIdle? && !Claiming(r.consumers[c])
  }

  /** A step sends `c` back to an earlier point of its loop, other than by a spurious failure of its CAS. */
  predicate IsRetry(r: Ring, step: RingStep, c: nat)
    requires Enabled(r, step)
  {
    || (step == LoadSequence(c) && Do(r, step).consumers[c].Reload?)
    || (step == CasTail(c, false) && Do(r, step).consumers[c].GotTail?)
  }

  predicate ClaimsTicket(r: Ring, step: RingStep)
    requires Enabled(r, step)
  {
    step.CasTail? && Do(r, step).consumers[step.c].Won?
  }

  function Retries(r: Ring, steps: seq<RingStep>, c: nat): nat
    decreases |steps|
  {
    if steps == [] || !Enabled(r, steps[0]) then 0
    else (if IsRetry(r, steps[0], c) then 1 else 0) + Retries(Do(r, steps[0]), steps[1..], c)
  }

  /** The claims made by consumers other than `c`. */
  function ClaimsOfOthers(r: Ring, steps: seq<RingStep>, c: nat): nat
    decreases |steps|
  {
    if steps == [] || !Enabled(r, steps[0]) then 0
    else
      var one := if ClaimsTicket(r, steps[0]) && steps[0].c != c then 1 else 0;
      one + ClaimsOfOthers(Do(r, steps[0]), steps[1..], c)
  }

  /** `c` searches all the way along the run. */
  ghost predicate SearchesThroughout(r: Ring, steps: seq<RingStep>, c: nat)
    decreases |steps|
  {
    Searches(r, c) && (steps != [] && Enabled(r, steps[0]) ==> SearchesThroughout(Do(r, steps[0]), steps[1..], c))
  }

  /** The claims `c` has still to hear of: those between its ticket and the tail. */
  function Behind(r: Ring, c: nat): int
    requires Searches(r, c)
  {
    if r.consumers[c].Reload? then 0 else r.tail - r.consumers[c].pos
  }

  lemma StepPaysForRetry(r: Ring, step: RingStep, c: nat)
    requires Inv(r) && Enabled(r, step) && Searches(r, c) && Searches(Do(r, step), c)
    ensures Behind(r, c) >= 0
    ensures
      (if IsRetry(r, step, c) then 1 else 0) + Behind(Do(r, step), c)
      <= Behind(r, c) + (if ClaimsTicket(r, step) && step.c != c then 1 else 0)
  {
    assert ConsumerOk(r, r.consumers[c]);
    if step == LoadSequence(c) {
      SignOfDiff(r, c);
    }
  }

  lemma {:induction false} RetriesFrom(r: Ring, steps: seq<RingStep>, c: nat)
    requires Inv(r) && SearchesThroughout(r, steps, c)
    ensures Retries(r, steps, c) <= Behind(r, c) + ClaimsOfOthers(r, steps, c)
    decreases |steps|
  {
    if steps == [] || !Enabled(r, steps[0]) {
      assert ConsumerOk(r, r.consumers[c]);
    } else {
      StepPaysForRetry(r, steps[0], c);
      StepKeepsInv(r, steps[0]);
      RetriesFrom(Do(r, steps[0]), steps[1..], c);
    }
  }

  /** However long a dequeue goes on, it has retried at most once for each claim others made since it began. */
  lemma RetriesArePaidFor(r: Ring, c: nat, steps: seq<RingStep>)
    requires Reachable(r) && Enabled(r, StartDequeue(c))
    requires SearchesThroughout(Do(r, StartDequeue(c)), steps, c)
    ensures
      var begun := Do(r, StartDequeue(c));
      Retries(begun, steps, c) <= ClaimsOfOthers(begun, steps, c)
  {
    ReachableHasInv(r);
    StepKeepsInv(r, StartDequeue(c));
    RetriesFrom(Do(r, StartDequeue(c)), steps, c);
  }

  // ---------------------------------------------------------------- refinement of a queue

  datatype Call = NoCall | Searching | Due(r: Option<Task>)

  /**
   * An atomic FIFO queue: all tasks ever enqueued, how many of them have been taken, the place of the
   * task whose enqueue each producer has open, and the dequeue call each consumer has open.
   */
  datatype Fifo = Fifo(tasks: seq<Task>, taken: nat, open: seq<Option<nat>>, calls: seq<Call>)

  datatype Event =
    | Internal
    | Enqueued(i: nat, x: Task) | EnqueueReturned(i: nat)
    | DequeueCalled(c: nat) | TookFirst(c: nat) | DequeueReturned(c: nat, r: Option<Task>) | AppearedEmpty(c: nat)

  /** The enqueue of the task at place `p` has not returned yet. */
  ghost predicate IsOpen(open: seq<Option<nat>>, p: nat) {
    exists i :: 0 <= i < |open| && open[i] == Some(p)
  }

  /**
   * Enqueues append at once, dequeues take the first task at once, and only once its enqueue has returned.
   * A dequeue is told "empty" only if there is no first task, or if its enqueue has not returned.
   */
  ghost predicate FifoNext(q: Fifo, e: Event, q': Fifo) {
    match e
    case Internal => q' == q
    case Enqueued(i, x) =>
      && i < |q.open| && q.open[i].None?
      && q' == q.(tasks := q.tasks + [x], open := q.open[i := Some(|q.tasks|)])
    case EnqueueReturned(i) => i < |q.open| && q.open[i].Some? && q' == q.(open := q.open[i := None])
    case DequeueCalled(c) => c < |q.calls| && q.calls[c].NoCall? && q' == q.(calls := q.calls[c := Searching])
    case TookFirst(c) =>
      && c < |q.calls| && q.calls[c].Searching? && q.taken < |q.tasks| && !IsOpen(q.open, q.taken)
      && q' == q.(taken := q.taken + 1, calls := q.calls[c := Due(Some(q.tasks[q.taken]))])
    case DequeueReturned(c, r) => c < |q.calls| && q.calls[c] == Due(r) && q' == q.(calls := q.calls[c := NoCall])
    case AppearedEmpty(c) =>
      && c < |q.calls| && q.calls[c].Searching? && (q.taken == |q.tasks| || IsOpen(q.open, q.taken))
      && q' == q.(calls := q.calls[c := NoCall])
  }

  function CallOf(r: Ring, pc: ConsumerPc): Call {
    match pc
    case CIdle => NoCall
    case Won(pos) => Due(if pos < |r.tickets| then Some(r.tickets[pos]) else None)
    case Took(_, raw) => Due(raw)
    case _ => Searching
  }

  function OpenOf(pc: ProducerPc): Option<nat> {
    if pc.PIdle? then None else Some(pc.pos)
  }

  function Opens(r: Ring): seq<Option<nat>> {
    seq(|r.producers|, i requires 0 <= i < |r.producers| => OpenOf(r.producers[i]))
  }

  function Calls(r: Ring): seq<Call> {
    seq(|r.consumers|, c requires 0 <= c < |r.consumers| => CallOf(r, r.consumers[c]))
  }

  /** Enqueues take effect when they take their ticket, dequeues when they claim theirs. */
  function Abstract(r: Ring): Fifo {
    Fifo(r.tickets, r.tail, Opens(r), Calls(r))
  }

  function EventOf(r: Ring, step: RingStep): Event
    requires Enabled(r, step)
  {
    match step
    case Reserve(i, x) => Enqueued(i, x)
    case Publish(i) => EnqueueReturned(i)
    case StartDequeue(c) => DequeueCalled(c)
    case LoadSequence(c) => if Diff(r, r.consumers[c].pos) < 0 then AppearedEmpty(c) else Internal
    case CasTail(c, spurious) => if r.tail == r.consumers[c].pos && !spurious then TookFirst(c) else Internal
    case Release(c) => DequeueReturned(c, r.consumers[c].raw)
    case _ => Internal
  }

  /** A step of consumer `c` moves that consumer's call and no other. */
  lemma OneCallMoves(r: Ring, r': Ring, c: nat)
    requires c < |r.consumers| == |r'.consumers| && r'.tickets == r.tickets && r'.producers == r.producers
    requires r'.consumers == r.consumers[c := r'.consumers[c]]
    ensures Calls(r') == Calls(r)[c := CallOf(r', r'.consumers[c])] && Opens(r') == Opens(r)
    ensures Calls(r)[c] == CallOf(r, r.consumers[c])
  {
  }

  /** A step of producer `i` moves that producer's call and no other. */
  lemma OneOpenMoves(r: Ring, r': Ring, i: nat)
    requires Inv(r) && i < |r.producers| == |r'.producers| && r.tickets <= r'.tickets && r'.consumers == r.consumers
    requires r'.producers == r.producers[i := r'.producers[i]]
    ensures Opens(r') == Opens(r)[i := OpenOf(r'.producers[i])] && Calls(r') == Calls(r)
    ensures Opens(r)[i] == OpenOf(r.producers[i])
  {
    forall c | 0 <= c < |r.consumers|
      ensures Calls(r')[c] == Calls(r)[c]
    {
      assert ConsumerOk(r, r.consumers[c]);
    }
  }

  /** A filled ticket's enqueue has returned. */
  lemma FilledIsNotOpen(r: Ring, p: nat)
    requires Inv(r) && Filled(r, p)
    ensures !IsOpen(Opens(r), p)
  {
    forall i | 0 <= i < |Opens(r)|
      ensures Opens(r)[i] != Some(p)
    {
      assert ProducerOk(r, r.producers[i]);
    }
  }

  /** An unpublished ticket at the tail does not exist yet, or its enqueue is still open. */
  lemma UnfilledIsOpen(r: Ring)
    requires Inv(r) && r.tail < r.head && !Filled(r, r.tail)
    ensures IsOpen(Opens(r), r.tail)
  {
    assert Accounted(r, r.tail);
    if Released(r, r.tail) {
      ReleasedIsClaimed(r, r.tail);
    }
    var i :| 0 <= i < |r.producers| && Writes(r.producers[i], r.tail);
    assert Opens(r)[i] == Some(r.tail);
  }

  lemma CasTailRefines(r: Ring, c: nat, spurious: bool)
    requires Inv(r) && Enabled(r, CasTail(c, spurious))
    ensures FifoNext(Abstract(r), EventOf(r, CasTail(c, spurious)), Abstract(Do(r, CasTail(c, spurious))))
  {
    var pos := r.consumers[c].pos;
    OneCallMoves(r, Do(r, CasTail(c, spurious)), c);
    if r.tail == pos && !spurious {
      assert ConsumerOk(r, r.consumers[c]) && SlotOk(r, Home(r, pos));
      FilledIsNotOpen(r, pos);
    }
  }

  lemma LoadSequenceRefines(r: Ring, c: nat)
    requires Inv(r) && Enabled(r, LoadSequence(c))
    ensures FifoNext(Abstract(r), EventOf(r, LoadSequence(c)), Abstract(Do(r, LoadSequence(c))))
  {
    OneCallMoves(r, Do(r, LoadSequence(c)), c);
    if Diff(r, r.consumers[c].pos) < 0 {
      NegativeDiffMeans(r, c);
      if r.tail < r.head {
        UnfilledIsOpen(r);
      }
    }
  }

  lemma ConsumerStepRefines(r: Ring, step: RingStep)
    requires Inv(r) && Enabled(r, step)
    requires step.StartDequeue? || step.LoadTail? || step.Exchange? || step.Release?
    ensures FifoNext(Abstract(r), EventOf(r, step), Abstract(Do(r, step)))
  {
    OneCallMoves(r, Do(r, step), step.c);
    assert ConsumerOk(r, r.consumers[step.c]);
  }

  lemma ProducerStepRefines(r: Ring, step: RingStep)
    requires Inv(r) && Enabled(r, step)
    requires step.Reserve? || step.Await? || step.StorePayload? || step.Publish?
    ensures FifoNext(Abstract(r), EventOf(r, step), Abstract(Do(r, step)))
  {
    OneOpenMoves(r, Do(r, step), step.i);
  }

  lemma StepRefines(r: Ring, step: RingStep)
    requires Inv(r) && Enabled(r, step)
    ensures FifoNext(Abstract(r), EventOf(r, step), Abstract(Do(r, step)))
  {
    if step.Reserve? || step.Await? || step.StorePayload? || step.Publish? {
      ProducerStepRefines(r, step);
    } else if step.CasTail? {
      CasTailRefines(r, step.c, step.spurious);
    } else if step.LoadSequence? {
      LoadSequenceRefines(r, step.c);
    } else {
      ConsumerStepRefines(r, step);
    }
  }

  function Trace(r: Ring, steps: seq<RingStep>): seq<Event>
    decreases |steps|
  {
    if steps == [] || !Enabled(r, steps[0]) then []
    else [EventOf(r, steps[0])] + Trace(Do(r, steps[0]), steps[1..])
  }

  ghost predicate FifoRun(q: Fifo, events: seq<Event>, q': Fifo)
    decreases |events|
  {
    if events == [] then q == q'
    else exists m :: FifoNext(q, events[0], m) && FifoRun(m, events[1..], q')
  }

  /**
   * The ring refines an atomic FIFO queue: any run's trace is a trace of the queue, in which claims take the
   * first task and "empty" is answered only with no first task there or its enqueue still open.
   */
  lemma {:induction false} RunRefinesQueue(r: Ring, steps: seq<RingStep>, r': Ring)
    requires Inv(r) && Reaches(r, steps, r')
    ensures FifoRun(Abstract(r), Trace(r, steps), Abstract(r'))
    decreases |steps|
  {
    if steps != [] {
      var m := Do(r, steps[0]);
      StepKeepsInv(r, steps[0]);
      StepRefines(r, steps[0]);
      RunRefinesQueue(m, steps[1..], r');
      assert Trace(r, steps)[1..] == Trace(m, steps[1..]);
    }
  }
}
