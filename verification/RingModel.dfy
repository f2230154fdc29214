/**
 * The bounded multi-producer multi-consumer ring as a transition system: one atomic access of one thread
 * a step, sequentially consistent.  Tickets and sequence numbers are mathematical integers, which is
 * what the 64-bit counters are below 2^63; the ring size is `|slots|`.
 */
module RingModel {
  import opened Wrappers

  datatype Cell = Cell(sequence: nat, payload: Option<Task>)

  datatype ProducerPc =
    | PIdle
    | Reserved(pos: nat, x: Task)   // spinning until the slot shows `pos`
    | Ready(pos: nat, x: Task)
    | Written(pos: nat, x: Task)

  datatype ConsumerPc =
    | CIdle
    | Reload                        // about to read `tail_` (again)
    | GotTail(pos: nat)
    | SawFilled(pos: nat)           // the slot showed `pos + 1`
    | Won(pos: nat)
    | Took(pos: nat, raw: Option<Task>)

  /**
   * Histories: `tickets[p]` is the task enqueued under ticket `p`, `turn[j]` the ticket whose turn it is
   * at slot `j`, and `returned[p]` what the consumer of ticket `p` returned.
   */
  datatype Ring = Ring(
    head: nat, tail: nat, slots: seq<Cell>, producers: seq<ProducerPc>, consumers: seq<ConsumerPc>,
    tickets: seq<Task>, turn: seq<nat>, returned: map<nat, Option<Task>>)

  datatype RingStep =
    | Reserve(i: nat, x: Task) | Await(i: nat) | StorePayload(i: nat) | Publish(i: nat)
    | StartDequeue(c: nat) | LoadTail(c: nat) | LoadSequence(c: nat) | CasTail(c: nat, spurious: bool)
    | Exchange(c: nat) | Release(c: nat)

  /** `ring_[i].sequence` starts at `i`, so the producer of ticket `i` finds its slot ready. */
  function Init(size: nat, producers: nat, consumers: nat): Ring {
    Ring(0, 0, seq(size, i requires i >= 0 => Cell(i, None)), seq(producers, _ => PIdle),
         seq(consumers, _ => CIdle), [], seq(size, i requires i >= 0 => i), map[])
  }

  function Home(r: Ring, pos: nat): nat
    requires r.slots != []
  {
    pos % |r.slots|
  }

  predicate Enabled(r: Ring, step: RingStep) {
    && r.slots != [] && |r.turn| == |r.slots|
    && match step
       case Reserve(i, _) => i < |r.producers| && r.producers[i].PIdle?
       case Await(i) => i < |r.producers| && r.producers[i].Reserved?
       case StorePayload(i) => i < |r.producers| && r.producers[i].Ready?
       case Publish(i) => i < |r.producers| && r.producers[i].Written?
       case StartDequeue(c) => c < |r.consumers| && r.consumers[c].CIdle?
       case LoadTail(c) => c < |r.consumers| && r.consumers[c].Reload?
       case LoadSequence(c) => c < |r.consumers| && r.consumers[c].GotTail?
       case CasTail(c, _) => c < |r.consumers| && r.consumers[c].SawFilled?
       case Exchange(c) => c < |r.consumers| && r.consumers[c].Won?
       case Release(c) => c < |r.consumers| && r.consumers[c].Took?
  }

  function SetSlot(r: Ring, pos: nat, cell: Cell): Ring
    requires r.slots != []
  {
    r.(slots := r.slots[Home(r, pos) := cell])
  }

  function Do(r: Ring, step: RingStep): Ring
    requires Enabled(r, step)
  {
    match step
    case Reserve(i, x) =>
      r.(head := r.head + 1, tickets := r.tickets + [x], producers := r.producers[i := Reserved(r.head, x)])
    case Await(i) =>
      var Reserved(pos, x) := r.producers[i];
      if r.slots[Home(r, pos)].sequence == pos then r.(producers := r.producers[i := Ready(pos, x)]) else r
    case StorePayload(i) =>
      var Ready(pos, x) := r.producers[i];
      SetSlot(r, pos, r.slots[Home(r, pos)].(payload := Some(x)))
      .(producers := r.producers[i := Written(pos, x)])
    case Publish(i) =>
      var Written(pos, x) := r.producers[i];
      SetSlot(r, pos, r.slots[Home(r, pos)].(sequence := pos + 1)).(producers := r.producers[i := PIdle])
    case StartDequeue(c) => r.(consumers := r.consumers[c := Reload])
    case LoadTail(c) => r.(consumers := r.consumers[c := GotTail(r.tail)])
    case LoadSequence(c) => r.(consumers := r.consumers[c := AfterSequence(r, r.consumers[c].pos)])
    case CasTail(c, spurious) =>
      var pos := r.consumers[c].pos;
      if r.tail == pos && !spurious then r.(tail := pos + 1, consumers := r.consumers[c := Won(pos)])
      else r.(consumers := r.consumers[c := GotTail(r.tail)])
    case Exchange(c) =>
      var pos := r.consumers[c].pos;
      var cell := r.slots[Home(r, pos)];
      SetSlot(r, pos, cell.(payload := None)).(consumers := r.consumers[c := Took(pos, cell.payload)])
    case Release(c) =>
      var Took(pos, raw) := r.consumers[c];
      var next := pos + |r.slots|;
      SetSlot(r, pos, r.slots[Home(r, pos)].(sequence := next))
      .(consumers := r.consumers[c := CIdle], turn := r.turn[Home(r, pos) := next],
        returned := r.returned[pos := raw])
  }

  /** `diff` of the code: the sequence number against the one a filled slot would show. */
  function Diff(r: Ring, pos: nat): int
    requires r.slots != []
  {
    r.slots[Home(r, pos)].sequence - (pos + 1)
  }

  function AfterSequence(r: Ring, pos: nat): ConsumerPc
    requires r.slots != []
  {
    if Diff(r, pos) == 0 then SawFilled(pos) else if Diff(r, pos) < 0 then CIdle else Reload
  }

  ghost predicate Reaches(r: Ring, steps: seq<RingStep>, r': Ring)
    decreases |steps|
  {
    if steps == [] then r == r' else Enabled(r, steps[0]) && Reaches(Do(r, steps[0]), steps[1..], r')
  }
}
