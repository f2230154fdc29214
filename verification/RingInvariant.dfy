/** The inductive invariant of the ring. */
module RingInvariant {
  import opened Wrappers
  import opened RingModel

  /** Ticket `p` has been consumed and its slot handed on to the next generation. */
  predicate Released(r: Ring, p: nat)
    requires r.slots != [] && |r.turn| == |r.slots|
  {
    p < r.turn[Home(r, p)]
  }

  /** Ticket `p` is the one its slot serves, and its task has been published. */
  predicate Filled(r: Ring, p: nat)
    requires r.slots != [] && |r.turn| == |r.slots|
  {
    r.turn[Home(r, p)] == p && r.slots[Home(r, p)].sequence == p + 1
  }

  predicate Writes(pc: ProducerPc, p: nat) {
    !pc.PIdle? && pc.pos == p
  }

  predicate Claiming(pc: ConsumerPc) {
    pc.Won? || pc.Took?
  }

  predicate Holds(pc: ConsumerPc, p: nat) {
    Claiming(pc) && pc.pos == p
  }

  ghost predicate BeingPublished(producers: seq<ProducerPc>, p: nat) {
    exists i :: 0 <= i < |producers| && producers[i].Written? && producers[i].pos == p
  }

  /** Slot `j`: whose turn it is, which phase it is in, and how that relates to the claims so far. */
  ghost predicate SlotOk(r: Ring, j: nat)
    requires j < |r.slots| == |r.turn| && |r.tickets| == r.head
  {
    var c, cell := r.turn[j], r.slots[j];
    && c % |r.slots| == j
    && c < r.tail + |r.slots|
    && if cell.sequence == c then
         r.tail <= c && (cell.payload.Some? ==> BeingPublished(r.producers, c))
       else
         && cell.sequence == c + 1 && c < r.head && r.tail <= c + |r.slots|
         && (r.tail <= c ==> cell.payload == Some(r.tickets[c]))
  }

  ghost predicate ProducerOk(r: Ring, pc: ProducerPc)
    requires r.slots != [] && |r.turn| == |r.slots| && |r.tickets| == r.head
  {
    !pc.PIdle? ==>
      && pc.pos < r.head && r.tickets[pc.pos] == pc.x
      && !Released(r, pc.pos) && !Filled(r, pc.pos)
      && (pc.Ready? || pc.Written? ==>
            var cell := r.slots[Home(r, pc.pos)];
            && r.turn[Home(r, pc.pos)] == pc.pos == cell.sequence
            && cell.payload == if pc.Ready? then None else Some(pc.x))
  }

  ghost predicate ConsumerOk(r: Ring, pc: ConsumerPc)
    requires r.slots != [] && |r.turn| == |r.slots| && |r.tickets| == r.head
  {
    match pc
    case CIdle => true
    case Reload => true
    case GotTail(pos) => pos <= r.tail
    case SawFilled(pos) => pos <= r.tail && (pos == r.tail ==> Filled(r, pos))
    case Won(pos) => pos < r.tail <= r.head && Filled(r, pos) && r.slots[Home(r, pos)].payload == Some(r.tickets[pos])
    case Took(pos, raw) =>
      && pos < r.tail <= r.head && Filled(r, pos) && r.slots[Home(r, pos)].payload == None
      && raw == Some(r.tickets[pos])
  }

  ghost predicate Sizes(r: Ring) {
    2 <= |r.slots| == |r.turn| && |r.tickets| == r.head && r.tail <= r.head
  }

  ghost predicate SlotsOk(r: Ring)
    requires Sizes(r)
  {
    forall j | 0 <= j < |r.slots| :: SlotOk(r, j)
  }

  ghost predicate ProducersOk(r: Ring)
    requires Sizes(r)
  {
    forall i | 0 <= i < |r.producers| :: ProducerOk(r, r.producers[i])
  }

  ghost predicate ConsumersOk(r: Ring)
    requires Sizes(r)
  {
    forall c | 0 <= c < |r.consumers| :: ConsumerOk(r, r.consumers[c])
  }

  /** No two producers work on the same ticket ... */
  ghost predicate OneProducer(producers: seq<ProducerPc>) {
    forall i, k | 0 <= i < k < |producers| && !producers[i].PIdle? && !producers[k].PIdle? ::
      producers[i].pos != producers[k].pos
  }

  /** ... and no two consumers past their claim do. */
  ghost predicate OneConsumer(consumers: seq<ConsumerPc>) {
    forall c, d | 0 <= c < d < |consumers| && Claiming(consumers[c]) && Claiming(consumers[d]) ::
      consumers[c].pos != consumers[d].pos
  }

  ghost predicate Produced(producers: seq<ProducerPc>, p: nat) {
    exists i :: 0 <= i < |producers| && Writes(producers[i], p)
  }

  ghost predicate Consumed(consumers: seq<ConsumerPc>, p: nat) {
    exists c :: 0 <= c < |consumers| && Holds(consumers[c], p)
  }

  /** Ticket `p` is being produced, or is filled, or has been released with its own task. */
  ghost predicate Accounted(r: Ring, p: nat)
    requires Sizes(r) && p < r.head
  {
    if Released(r, p) then p in r.returned && r.returned[p] == Some(r.tickets[p])
    else if Filled(r, p) then p !in r.returned && (p < r.tail ==> Consumed(r.consumers, p))
    else p !in r.returned && Produced(r.producers, p)
  }

  ghost predicate AllAccounted(r: Ring)
    requires Sizes(r)
  {
    forall p | 0 <= p < r.head :: Accounted(r, p)
  }

  ghost predicate Inv(r: Ring) {
    && Sizes(r)
    && SlotsOk(r) && ProducersOk(r) && ConsumersOk(r)
    && OneProducer(r.producers) && OneConsumer(r.consumers)
    && AllAccounted(r)
    && (forall p | p in r.returned :: p < r.tail)
  }
}
