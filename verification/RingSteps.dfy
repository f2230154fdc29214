/** Every step of every producer and consumer keeps the invariant of the ring. */
module RingSteps {
  import opened Wrappers
  import opened RingModel
  import opened RingInvariant
  import opened Arithmetic

  // ---------------------------------------------------------------- arithmetic of homes

  /** Tickets that share a slot are at least one ring size apart. */
  lemma SameHomeIsFar(r: Ring, p: nat, q: nat)
    requires r.slots != [] && p < q && Home(r, p) == Home(r, q)
    ensures p + |r.slots| <= q
  {
    if q < p + |r.slots| {
      NearbyIndicesDiffer(p, q, |r.slots|);
    }
  }

  lemma HomeOfNextTurn(r: Ring, p: nat)
    requires r.slots != []
    ensures Home(r, p + |r.slots|) == Home(r, p)
  {
    var n := |r.slots|;
    ModuloUnique(p + n, n, p / n + 1, p % n);
  }

  /** A slot at the home of `p` that shows `p + 1` shows that ticket `p` is filled. */
  lemma ShownMeansFilled(r: Ring, p: nat)
    requires Sizes(r) && SlotOk(r, Home(r, p)) && r.slots[Home(r, p)].sequence == p + 1
    ensures Filled(r, p)
  {
    NearbyIndicesDiffer(p, p + 1, |r.slots|);
  }

  /** A claimed ticket was filled at the time, so it is filled still or released. */
  lemma ClaimedIsFilledOrReleased(r: Ring, p: nat)
    requires Sizes(r) && SlotsOk(r) && p < r.tail
    ensures Released(r, p) || Filled(r, p)
  {
    var j := Home(r, p);
    assert SlotOk(r, j);
    var c := r.turn[j];
    if c < p {
      SameHomeIsFar(r, c, p);
    }
  }

  /** A released ticket was claimed. */
  lemma ReleasedIsClaimed(r: Ring, p: nat)
    requires Sizes(r) && SlotsOk(r) && Released(r, p)
    ensures p < r.tail
  {
    var j := Home(r, p);
    assert SlotOk(r, j);
    SameHomeIsFar(r, p, r.turn[j]);
  }

  // ---------------------------------------------------------------- steps that leave the slots alone

  /** Nothing shared changes but the head: only program counters and tickets may move. */
  ghost predicate Still(r: Ring, r': Ring) {
    && r'.slots == r.slots && r'.turn == r.turn && r'.tail == r.tail
    && r.head <= r'.head && r.tickets <= r'.tickets && r'.returned == r.returned
  }

  lemma StillProducer(r: Ring, r': Ring, pc: ProducerPc)
    requires Sizes(r) && Sizes(r') && Still(r, r') && ProducerOk(r, pc)
    ensures ProducerOk(r', pc)
  {
  }

  lemma StillConsumer(r: Ring, r': Ring, pc: ConsumerPc)
    requires Sizes(r) && Sizes(r') && Still(r, r') && ConsumerOk(r, pc)
    ensures ConsumerOk(r', pc)
  {
  }

  lemma StillAccounted(r: Ring, r': Ring, p: nat)
    requires Sizes(r) && Sizes(r') && Still(r, r') && p < r.head && Accounted(r, p)
    requires Produced(r.producers, p) ==> Produced(r'.producers, p)
    requires Consumed(r.consumers, p) ==> Consumed(r'.consumers, p)
    ensures Accounted(r', p)
  {
  }

  /** A producer's program counter advances on the same ticket, or starts on one. */
  predicate ProducerMoves(a: ProducerPc, b: ProducerPc) {
    b == a || (!b.PIdle? && !a.Written? && (a.PIdle? || a.pos == b.pos))
  }

  lemma MovesKeepProducing(producers: seq<ProducerPc>, producers': seq<ProducerPc>, p: nat)
    requires |producers'| == |producers|
    requires forall k | 0 <= k < |producers| :: ProducerMoves(producers[k], producers'[k])
    ensures Produced(producers, p) ==> Produced(producers', p)
    ensures BeingPublished(producers, p) ==> BeingPublished(producers', p)
  {
    if Produced(producers, p) {
      var k :| 0 <= k < |producers| && Writes(producers[k], p);
      assert ProducerMoves(producers[k], producers'[k]);
      assert Writes(producers'[k], p);
    }
    if BeingPublished(producers, p) {
      var k :| 0 <= k < |producers| && producers[k].Written? && producers[k].pos == p;
      assert ProducerMoves(producers[k], producers'[k]);
      assert producers'[k].Written? && producers'[k].pos == p;
    }
  }

  lemma SameClaimsKeepConsuming(consumers: seq<ConsumerPc>, consumers': seq<ConsumerPc>, p: nat)
    requires |consumers'| == |consumers|
    requires forall c | 0 <= c < |consumers| && Claiming(consumers[c]) ::
      Claiming(consumers'[c]) && consumers'[c].pos == consumers[c].pos
    ensures Consumed(consumers, p) ==> Consumed(consumers', p)
  {
    if Consumed(consumers, p) {
      var c :| 0 <= c < |consumers| && Holds(consumers[c], p);
      assert Holds(consumers'[c], p);
    }
  }

  lemma StillKeepsSlots(r: Ring, r': Ring)
    requires Sizes(r) && SlotsOk(r) && Sizes(r') && Still(r, r') && |r'.producers| == |r.producers|
    requires forall k | 0 <= k < |r.producers| :: ProducerMoves(r.producers[k], r'.producers[k])
    ensures SlotsOk(r')
  {
    forall j | 0 <= j < |r'.slots|
      ensures SlotOk(r', j)
    {
      assert SlotOk(r, j);
      MovesKeepProducing(r.producers, r'.producers, r.turn[j]);
    }
  }

  /** Steps that only read shared memory, or only hand out a ticket. */
  lemma StillKeepsInv(r: Ring, r': Ring)
    requires Inv(r) && Sizes(r') && Still(r, r')
    requires |r'.producers| == |r.producers| && |r'.consumers| == |r.consumers|
    requires forall k | 0 <= k < |r.producers| :: ProducerMoves(r.producers[k], r'.producers[k])
    requires forall k | 0 <= k < |r.producers| :: r'.producers[k] == r.producers[k] || ProducerOk(r', r'.producers[k])
    requires forall c | 0 <= c < |r.consumers| ::
      (r'.consumers[c] == r.consumers[c]
       || (!Claiming(r.consumers[c]) && !Claiming(r'.consumers[c]) && ConsumerOk(r', r'.consumers[c])))
    requires OneProducer(r'.producers)
    requires forall p | r.head <= p < r'.head :: Accounted(r', p)
    ensures Inv(r')
  {
    StillKeepsSlots(r, r');
    forall k | 0 <= k < |r'.producers|
      ensures ProducerOk(r', r'.producers[k])
    {
      if r'.producers[k] == r.producers[k] {
        StillProducer(r, r', r.producers[k]);
      }
    }
    forall c | 0 <= c < |r'.consumers|
      ensures ConsumerOk(r', r'.consumers[c])
    {
      if r'.consumers[c] == r.consumers[c] {
        StillConsumer(r, r', r.consumers[c]);
      }
    }
    forall p | 0 <= p < r'.head
      ensures Accounted(r', p)
    {
      if p < r.head {
        MovesKeepProducing(r.producers, r'.producers, p);
        SameClaimsKeepConsuming(r.consumers, r'.consumers, p);
        StillAccounted(r, r', p);
      }
    }
  }

  /** No slot serves the ticket about to be handed out. */
  lemma NewTicketIsOpen(r: Ring)
    requires Sizes(r) && SlotsOk(r)
    ensures !Released(r, r.head) && !Filled(r, r.head)
  {
    assert SlotOk(r, Home(r, r.head));
    if Released(r, r.head) {
      ReleasedIsClaimed(r, r.head);
    }
  }

  lemma ReserveKeepsInv(r: Ring, i: nat, x: Task)
    requires Inv(r) && Enabled(r, Reserve(i, x))
    ensures Inv(Do(r, Reserve(i, x)))
  {
    var r' := Do(r, Reserve(i, x));
    NewTicketIsOpen(r);
    assert Writes(r'.producers[i], r.head);
    assert OneProducer(r'.producers) by {
      assert forall k | 0 <= k < |r.producers| :: ProducerOk(r, r.producers[k]);
    }
    StillKeepsInv(r, r');
  }

  lemma AwaitKeepsInv(r: Ring, i: nat)
    requires Inv(r) && Enabled(r, Await(i))
    ensures Inv(Do(r, Await(i)))
  {
    var r' := Do(r, Await(i));
    if r' != r {
      var Reserved(pos, x) := r.producers[i];
      assert ProducerOk(r, r.producers[i]);
      AwaitedSlotIsEmpty(r, i);
      assert ProducerOk(r', r'.producers[i]);
      StillKeepsInv(r, r');
    }
  }

  /** A slot that shows ticket `pos` to its waiting producer serves that ticket and is empty. */
  lemma AwaitedSlotIsEmpty(r: Ring, i: nat)
    requires Inv(r) && i < |r.producers| && r.producers[i].Reserved?
    requires r.slots[Home(r, r.producers[i].pos)].sequence == r.producers[i].pos
    ensures r.turn[Home(r, r.producers[i].pos)] == r.producers[i].pos
    ensures r.slots[Home(r, r.producers[i].pos)].payload == None
  {
    var pos := r.producers[i].pos;
    var j := Home(r, pos);
    assert SlotOk(r, j) && ProducerOk(r, r.producers[i]);
    var c := r.turn[j];
    if c != pos {
      NearbyIndicesDiffer(c, c + 1, |r.slots|);
    }
  }

  // ---------------------------------------------------------------- steps on one slot

  /** The slot of ticket `pos`, whose turn it is, changes; everything else shared stays. */
  ghost predicate Serves(r: Ring, r': Ring, pos: nat, cell: Cell, turn: nat)
    requires Sizes(r)
  {
    && Sizes(r')
    && r.turn[Home(r, pos)] == pos && (turn == pos || turn == pos + |r.slots|)
    && r'.slots == r.slots[Home(r, pos) := cell] && r'.turn == r.turn[Home(r, pos) := turn]
    && r'.head == r.head && r'.tail == r.tail && r'.tickets == r.tickets
    && (turn != pos ==> cell.sequence == turn)
  }

  lemma OtherProducer(r: Ring, r': Ring, pos: nat, cell: Cell, turn: nat, pc: ProducerPc)
    requires Sizes(r) && Serves(r, r', pos, cell, turn)
    requires ProducerOk(r, pc) && (pc.PIdle? || pc.pos != pos)
    ensures ProducerOk(r', pc)
  {
    if !pc.PIdle? && Home(r, pc.pos) == Home(r, pos) {
      SameHomeIsFar(r, pos, pc.pos);
    }
  }

  lemma OtherConsumer(r: Ring, r': Ring, pos: nat, cell: Cell, turn: nat, pc: ConsumerPc)
    requires Sizes(r) && Serves(r, r', pos, cell, turn)
    requires ConsumerOk(r, pc) && (Claiming(pc) ==> pc.pos != pos)
    requires Filled(r, pos) ==> pos != r.tail
    ensures ConsumerOk(r', pc)
  {
  }

  lemma OtherSlots(r: Ring, r': Ring, pos: nat, cell: Cell, turn: nat)
    requires Sizes(r) && SlotsOk(r) && Serves(r, r', pos, cell, turn)
    requires SlotOk(r', Home(r, pos))
    requires forall p | p != pos && BeingPublished(r.producers, p) :: BeingPublished(r'.producers, p)
    ensures SlotsOk(r')
  {
    forall j | 0 <= j < |r'.slots|
      ensures SlotOk(r', j)
    {
      assert SlotOk(r, j);
    }
  }

  lemma OtherAccounted(r: Ring, r': Ring, pos: nat, cell: Cell, turn: nat, p: nat)
    requires Sizes(r) && Serves(r, r', pos, cell, turn) && p != pos && p < r.head
    requires Accounted(r, p)
    requires Produced(r.producers, p) ==> Produced(r'.producers, p)
    requires Consumed(r.consumers, p) ==> Consumed(r'.consumers, p)
    requires p in r'.returned <==> p in r.returned
    requires p in r.returned ==> r'.returned[p] == r.returned[p]
    ensures Accounted(r', p)
  {
    if Home(r, p) == Home(r, pos) && pos < p {
      SameHomeIsFar(r, pos, p);
    }
  }

  lemma StorePayloadKeepsInv(r: Ring, i: nat)
    requires Inv(r) && Enabled(r, StorePayload(i))
    ensures Inv(Do(r, StorePayload(i)))
  {
    var r' := Do(r, StorePayload(i));
    var Ready(pos, x) := r.producers[i];
    var cell := r'.slots[Home(r, pos)];
    assert ProducerOk(r, r.producers[i]) && SlotOk(r, Home(r, pos));
    assert Serves(r, r', pos, cell, pos);
    ProducerStepKeepsInv(r, r', i, cell);
  }

  lemma PublishKeepsInv(r: Ring, i: nat)
    requires Inv(r) && Enabled(r, Publish(i))
    ensures Inv(Do(r, Publish(i)))
  {
    var r' := Do(r, Publish(i));
    var Written(pos, x) := r.producers[i];
    var cell := r'.slots[Home(r, pos)];
    assert ProducerOk(r, r.producers[i]) && SlotOk(r, Home(r, pos));
    assert Serves(r, r', pos, cell, pos);
    ProducerStepKeepsInv(r, r', i, cell);
  }

  /** A producer writes the payload of its slot, or publishes it. */
  lemma ProducerStepKeepsInv(r: Ring, r': Ring, i: nat, cell: Cell)
    requires Inv(r) && i < |r.producers| == |r'.producers| && (r.producers[i].Ready? || r.producers[i].Written?)
    requires Serves(r, r', r.producers[i].pos, cell, r.producers[i].pos)
    requires r'.producers == r.producers[i := r'.producers[i]] && r'.consumers == r.consumers
    requires r'.returned == r.returned
    requires ProducerOk(r', r'.producers[i])
    requires SlotOk(r', Home(r, r.producers[i].pos))
    requires if r'.producers[i].PIdle? then Filled(r', r.producers[i].pos)
             else Writes(r'.producers[i], r.producers[i].pos) && !Filled(r', r.producers[i].pos)
    ensures Inv(r')
  {
    var pos := r.producers[i].pos;
    assert ProducerOk(r, r.producers[i]) && SlotOk(r, Home(r, pos));
    forall p | p != pos
      ensures Produced(r.producers, p) ==> Produced(r'.producers, p)
      ensures BeingPublished(r.producers, p) ==> BeingPublished(r'.producers, p)
    {
      OtherTicketsProduced(r.producers, i, r'.producers[i], p);
    }
    OtherSlots(r, r', pos, cell, pos);
    forall k | 0 <= k < |r'.producers|
      ensures ProducerOk(r', r'.producers[k])
    {
      if k != i {
        OtherProducer(r, r', pos, cell, pos, r.producers[k]);
      }
    }
    forall c | 0 <= c < |r'.consumers|
      ensures ConsumerOk(r', r'.consumers[c])
    {
      assert ConsumerOk(r, r.consumers[c]);
      OtherConsumer(r, r', pos, cell, pos, r.consumers[c]);
    }
    forall p | 0 <= p < r'.head
      ensures Accounted(r', p)
    {
      assert Accounted(r, p);
      if p != pos {
        OtherAccounted(r, r', pos, cell, pos, p);
      } else {
        assert p >= r.tail;
      }
    }
  }

  lemma OtherTicketsProduced(producers: seq<ProducerPc>, i: nat, pc: ProducerPc, p: nat)
    requires i < |producers| && !Writes(producers[i], p)
    ensures Produced(producers, p) ==> Produced(producers[i := pc], p)
    ensures BeingPublished(producers, p) ==> BeingPublished(producers[i := pc], p)
  {
    var producers' := producers[i := pc];
    if Produced(producers, p) {
      var k :| 0 <= k < |producers| && Writes(producers[k], p);
      assert Writes(producers'[k], p);
    }
    if BeingPublished(producers, p) {
      var k :| 0 <= k < |producers| && producers[k].Written? && producers[k].pos == p;
      assert producers'[k].Written? && producers'[k].pos == p;
    }
  }

  lemma ExchangeKeepsInv(r: Ring, c: nat)
    requires Inv(r) && Enabled(r, Exchange(c))
    ensures Inv(Do(r, Exchange(c)))
  {
    var r' := Do(r, Exchange(c));
    var pos := r.consumers[c].pos;
    var cell := r'.slots[Home(r, pos)];
    assert ConsumerOk(r, r.consumers[c]) && SlotOk(r, Home(r, pos));
    assert Serves(r, r', pos, cell, pos);
    assert Holds(r'.consumers[c], pos);
    assert Accounted(r, pos);
    ConsumerStepKeepsInv(r, r', c, cell, pos);
  }

  lemma ReleaseKeepsInv(r: Ring, c: nat)
    requires Inv(r) && Enabled(r, Release(c))
    ensures Inv(Do(r, Release(c)))
  {
    var r' := Do(r, Release(c));
    var pos := r.consumers[c].pos;
    var turn := pos + |r.slots|;
    var cell := r'.slots[Home(r, pos)];
    assert ConsumerOk(r, r.consumers[c]) && SlotOk(r, Home(r, pos));
    assert Serves(r, r', pos, cell, turn);
    HomeOfNextTurn(r, pos);
    ConsumerStepKeepsInv(r, r', c, cell, turn);
  }

  /** The consumer that owns a filled slot takes its payload, or hands the slot on. */
  lemma ConsumerStepKeepsInv(r: Ring, r': Ring, c: nat, cell: Cell, turn: nat)
    requires Inv(r) && c < |r.consumers| == |r'.consumers| && Claiming(r.consumers[c])
    requires Serves(r, r', r.consumers[c].pos, cell, turn)
    requires r'.consumers == r.consumers[c := r'.consumers[c]] && r'.producers == r.producers
    requires
      var pos := r.consumers[c].pos;
      r'.returned == r.returned || (turn != pos && r'.returned == r.returned[pos := Some(r.tickets[pos])])
    requires ConsumerOk(r', r'.consumers[c]) && SlotOk(r', Home(r, r.consumers[c].pos))
    requires Claiming(r'.consumers[c]) ==> r'.consumers[c].pos == r.consumers[c].pos
    requires r.consumers[c].pos < r'.head && Accounted(r', r.consumers[c].pos)
    ensures Inv(r')
  {
    var pos := r.consumers[c].pos;
    assert ConsumerOk(r, r.consumers[c]) && SlotOk(r, Home(r, pos));
    OtherSlots(r, r', pos, cell, turn);
    forall k | 0 <= k < |r'.producers|
      ensures ProducerOk(r', r'.producers[k])
    {
      assert ProducerOk(r, r.producers[k]);
      OtherProducer(r, r', pos, cell, turn, r.producers[k]);
    }
    forall d | 0 <= d < |r'.consumers|
      ensures ConsumerOk(r', r'.consumers[d])
    {
      if d != c {
        assert ConsumerOk(r, r.consumers[d]);
        OtherConsumer(r, r', pos, cell, turn, r.consumers[d]);
      }
    }
    forall p | 0 <= p < r'.head
      ensures Accounted(r', p)
    {
      assert Accounted(r, p);
      if p != pos {
        OtherTicketsConsumed(r.consumers, c, r'.consumers[c], p);
        OtherAccounted(r, r', pos, cell, turn, p);
      }
    }
  }

  lemma OtherTicketsConsumed(consumers: seq<ConsumerPc>, c: nat, pc: ConsumerPc, p: nat)
    requires c < |consumers| && !Holds(consumers[c], p)
    ensures Consumed(consumers, p) ==> Consumed(consumers[c := pc], p)
  {
    if Consumed(consumers, p) {
      var d :| 0 <= d < |consumers| && Holds(consumers[d], p);
      assert Holds(consumers[c := pc][d], p);
    }
  }

  // ---------------------------------------------------------------- consumers before their claim

  lemma SearchKeepsInv(r: Ring, step: RingStep)
    requires Inv(r) && Enabled(r, step)
    requires step.StartDequeue? || step.LoadTail? || step.LoadSequence?
    ensures Inv(Do(r, step))
  {
    var r' := Do(r, step);
    var c := step.c;
    assert ConsumerOk(r, r.consumers[c]);
    if step.LoadSequence? && Diff(r, r.consumers[c].pos) == 0 {
      var pos := r.consumers[c].pos;
      assert SlotOk(r, Home(r, pos));
      ShownMeansFilled(r, pos);
    }
    assert ConsumerOk(r', r'.consumers[c]);
    StillKeepsInv(r, r');
  }

  lemma CasTailKeepsInv(r: Ring, c: nat, spurious: bool)
    requires Inv(r) && Enabled(r, CasTail(c, spurious))
    ensures Inv(Do(r, CasTail(c, spurious)))
  {
    var r' := Do(r, CasTail(c, spurious));
    var pos := r.consumers[c].pos;
    assert ConsumerOk(r, r.consumers[c]);
    if r.tail == pos && !spurious {
      assert SlotOk(r, Home(r, pos));
      forall j | 0 <= j < |r'.slots|
        ensures SlotOk(r', j)
      {
        ClaimKeepsSlot(r, r', pos, j);
      }
      forall k | 0 <= k < |r'.producers|
        ensures ProducerOk(r', r'.producers[k])
      {
        assert ProducerOk(r, r.producers[k]);
      }
      forall d | 0 <= d < |r'.consumers|
        ensures ConsumerOk(r', r'.consumers[d])
      {
        assert ConsumerOk(r, r.consumers[d]);
      }
      assert Holds(r'.consumers[c], pos);
      forall p | 0 <= p < r'.head
        ensures Accounted(r', p)
      {
        assert Accounted(r, p);
        if p != pos {
          OtherTicketsConsumed(r.consumers, c, r'.consumers[c], p);
        }
      }
    } else {
      StillKeepsInv(r, r');
    }
  }

  lemma ClaimKeepsSlot(r: Ring, r': Ring, pos: nat, j: nat)
    requires Sizes(r) && Sizes(r') && j < |r.slots| && SlotOk(r, j) && Filled(r, pos) && r.tail == pos
    requires r'.slots == r.slots && r'.turn == r.turn && r'.producers == r.producers && r'.tickets == r.tickets
    requires r'.head == r.head && r'.tail == pos + 1
    ensures SlotOk(r', j)
  {
    HomeOfNextTurn(r, r.turn[j]);
  }

  // ---------------------------------------------------------------- all steps

  lemma StepKeepsInv(r: Ring, step: RingStep)
    requires Inv(r) && Enabled(r, step)
    ensures Inv(Do(r, step))
  {
    match step
    case Reserve(i, x) => ReserveKeepsInv(r, i, x);
    case Await(i) => AwaitKeepsInv(r, i);
    case StorePayload(i) => StorePayloadKeepsInv(r, i);
    case Publish(i) => PublishKeepsInv(r, i);
    case CasTail(c, spurious) => CasTailKeepsInv(r, c, spurious);
    case Exchange(c) => ExchangeKeepsInv(r, c);
    case Release(c) => ReleaseKeepsInv(r, c);
    case _ => SearchKeepsInv(r, step);
  }

  lemma InitHasInv(size: nat, producers: nat, consumers: nat)
    requires size >= 2
    ensures Inv(Init(size, producers, consumers))
  {
    var r := Init(size, producers, consumers);
    forall j | 0 <= j < size
      ensures SlotOk(r, j)
    {
      ModuloUnique(j, size, 0, j);
    }
  }
}
