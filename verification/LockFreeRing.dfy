/**
 * The ring in the code's own form: `enqueue` and `dequeue` with their spin and retry loops over the slots.
 * Ghost fields follow the transition system, one step for each access of any thread, and between any two
 * accesses of a call the other threads may do whatever they like.  The code's loops may spin for as long as
 * other threads keep them waiting: here each is given a number of rounds, any number, after which
 * the call is left standing where it is; its contract says what all those rounds came to.
 */
module LockFreeRings {
  import opened Wrappers
  import opened RingModel
  import opened RingInvariant
  import opened RingRuns
  import opened RingSteps
  import opened RingTheorems

  function IfMine(me: Agent, e: Event): seq<Event> {
    match e
    case Internal => []
    case Enqueued(i, _) => if me == Producer(i) then [e] else []
    case EnqueueReturned(i) => if me == Producer(i) then [e] else []
    case DequeueCalled(c) => if me == Consumer(c) then [e] else []
    case TookFirst(c) => if me == Consumer(c) then [e] else []
    case DequeueReturned(c, _) => if me == Consumer(c) then [e] else []
    case AppearedEmpty(c) => if me == Consumer(c) then [e] else []
  }

  /** The events of one agent, in order. */
  function Own(me: Agent, es: seq<Event>): seq<Event> {
    if es == [] then [] else Own(me, es[..|es| - 1]) + IfMine(me, Last(es))
  }

  lemma OwnAppend(me: Agent, es: seq<Event>, e: Event)
    ensures Own(me, es + [e]) == Own(me, es) + IfMine(me, e)
  {
    assert (es + [e])[..|es|] == es;
  }

  /** What the steps of others leave to agent `me`. */
  predicate Unmoved(me: Agent, r: Ring, r': Ring) {
    && |r'.producers| == |r.producers| && |r'.consumers| == |r.consumers|
    && match me
       case Producer(i) => i < |r.producers| ==> r'.producers[i] == r.producers[i]
       case Consumer(c) => c < |r.consumers| ==> r'.consumers[c] == r.consumers[c]
  }

  /** Any step of another agent respects what `Others` promises below. */
  lemma OthersLeaveMine(me: Agent, r: Ring, step: RingStep)
    requires Enabled(r, step) && By(step) != me
    ensures Unmoved(me, r, Do(r, step)) && IfMine(me, EventOf(r, step)) == []
  {
  }

  /** A run goes on by one step, and its trace by that step's event. */
  lemma {:induction false} OneMoreStep(r: Ring, steps: seq<RingStep>, m: Ring, step: RingStep)
    requires Reaches(r, steps, m) && Enabled(m, step)
    ensures Reaches(r, steps + [step], Do(m, step))
    ensures Trace(r, steps + [step]) == Trace(r, steps) + [EventOf(m, step)]
    decreases |steps|
  {
    if steps == [] {
      assert [step][1..] == [];
      assert steps + [step] == [step];
    } else {
      OneMoreStep(Do(r, steps[0]), steps[1..], m, step);
      assert (steps + [step])[1..] == steps[1..] + [step];
    }
  }

  /** What a consumer has taken is a task, never null. */
  lemma TakenIsTask(size: nat, producers: nat, consumers: nat, steps: seq<RingStep>, r: Ring, c: nat)
    requires size >= 2 && Reaches(Init(size, producers, consumers), steps, r)
    requires c < |r.consumers| && r.consumers[c].Took?
    ensures r.consumers[c].raw.Some?
  {
    InitHasInv(size, producers, consumers);
    RunKeepsInv(Init(size, producers, consumers), steps, r);
    assert ConsumerOk(r, r.consumers[c]);
  }

  class LockFreeRing {
    var head: nat
    var tail: nat
    const sequence: array<nat>
    const payload: array<Option<Task>>
    ghost const producers: nat
    ghost const consumers: nat
    ghost var history: seq<RingStep>
    ghost var r: Ring

    /** All accesses so far, of all threads, are a run of the transition system. */
    ghost predicate Sound()
      reads this
    {
      sequence.Length >= 2 && Reaches(Init(sequence.Length, producers, consumers), history, r)
    }

    /** The fields are what the transition system says they are. */
    ghost predicate Valid()
      reads this, sequence, payload
    {
      && Sound()
      && r.head == head && r.tail == tail && sequence != payload as object
      && |r.slots| == |r.turn| == sequence.Length == payload.Length
      && forall j | 0 <= j < sequence.Length :: r.slots[j] == Cell(sequence[j], payload[j])
    }

    ghost predicate Produces(i: nat, pc: ProducerPc)
      reads this
    {
      i < |r.producers| && r.producers[i] == pc
    }

    ghost predicate Consumes(c: nat, pc: ConsumerPc)
      reads this
    {
      c < |r.consumers| && r.consumers[c] == pc
    }

    ghost function RingStart(): Start
      reads this
    {
      Start(sequence.Length, producers, consumers)
    }

    /** What agent `me` has done to the queue so far. */
    ghost function Done(me: Agent): seq<Event>
      reads this
    {
      Own(me, Trace(Init(sequence.Length, producers, consumers), history))
    }

    /** Slot `i` starts with sequence number `i`, so that the producer of ticket `i` finds it ready. */
    constructor (size: nat, ghost producers: nat, ghost consumers: nat)
      requires size >= 2
      ensures Valid() && sequence.Length == size && r == Init(size, producers, consumers) && history == []
      ensures this.producers == producers && this.consumers == consumers && fresh(sequence) && fresh(payload)
    {
      head, tail := 0, 0;
      var numbers := new nat[size];
      sequence := numbers;
      payload := new Option<Task>[size](_ => None);
      this.producers, this.consumers := producers, consumers;
      history, r := [], Init(size, producers, consumers);
      new;
      var i := 0;
      while i < size
        invariant 0 <= i <= size && forall j | 0 <= j < i :: sequence[j] == j
        invariant forall j | 0 <= j < size :: payload[j] == None
        modifies sequence
      {
        sequence[i] := i;
        i := i + 1;
      }
    }

    // -------------------------------------------------------------- single accesses

    /** The ghost fields follow one step. */
    ghost method Follow(step: RingStep)
      requires Sound() && Enabled(r, step)
      modifies this`r, this`history
      ensures Sound() && r == Do(old(r), step) && history == old(history) + [step]
      ensures forall me :: Done(me) == old(Done(me)) + IfMine(me, EventOf(old(r), step))
    {
      var init := Init(sequence.Length, producers, consumers);
      OneMoreStep(init, history, r, step);
      forall me
        ensures Own(me, Trace(init, history + [step])) == Done(me) + IfMine(me, EventOf(r, step))
      {
        OwnAppend(me, Trace(init, history), EventOf(r, step));
      }
      r, history := Do(r, step), history + [step];
    }

    /** Any steps of the other agents.  Only this contract is known of them; see `OthersLeaveMine`. */
    method Others(ghost me: Agent)
      requires Valid()
      modifies this, sequence, payload
      ensures Valid() && Unmoved(me, old(r), r) && Done(me) == old(Done(me)) && OthersOnly(me, old(history), history)
    {
    }

    // -------------------------------------------------------------- enqueue

    method FetchAddHead(i: nat, x: Task) returns (pos: nat)
      requires Valid() && Produces(i, PIdle)
      modifies this, sequence, payload
      ensures Valid() && Produces(i, Reserved(pos, x)) && pos == old(head)
      ensures Done(Producer(i)) == old(Done(Producer(i))) + [Enqueued(i, x)]
      ensures Accessed(Producer(i), old(history), Reserve(i, x), history)
      ensures old(sequence[head % sequence.Length] == head) ==> SlotIsReady(r, i)
    {
      pos := head;
      head := head + 1;
      Follow(Reserve(i, x));
      ghost var run, m := history, r;
      Others(Producer(i));
      if SlotIsReady(m, i) {
        ReadyAmongOthers(RingStart(), run, m, history, r, i);
      }
    }

    method LoadSequenceToFill(i: nat, pos: nat, ghost x: Task) returns (ready: bool)
      requires Valid() && Produces(i, Reserved(pos, x))
      modifies this, sequence, payload
      ensures Valid() && Produces(i, if ready then Ready(pos, x) else Reserved(pos, x))
      ensures ready == (old(sequence[pos % sequence.Length]) == pos)
      ensures Done(Producer(i)) == old(Done(Producer(i))) && Accessed(Producer(i), old(history), Await(i), history)
    {
      ready := sequence[pos % sequence.Length] == pos;
      Follow(Await(i));
      Others(Producer(i));
    }

    /** One round of the spin loop. */
    method LookOnce(i: nat, pos: nat, ghost x: Task, ghost since: nat) returns (ready: bool)
      requires Valid() && Produces(i, Reserved(pos, x)) && LookedInVain(RingStart(), history, since, i, pos)
      modifies this, sequence, payload
      ensures Valid() && Produces(i, if ready then Ready(pos, x) else Reserved(pos, x))
      ensures Done(Producer(i)) == old(Done(Producer(i))) && old(history) <= history
      ensures Times(history, Await(i)) == old(Times(history, Await(i))) + 1
      ensures old(SlotIsReady(r, i)) ==> ready
      ensures !ready ==> LookedInVain(RingStart(), history, since, i, pos)
    {
      ghost var run, m := history, r;
      ready := LoadSequenceToFill(i, pos, x);
      TimesAfterAccess(Producer(i), run, Await(i), history, Await(i));
      if !ready {
        OneMoreVainLook(RingStart(), run, m, history, since, i, pos);
      }
    }

    method PutPayload(i: nat, pos: nat, x: Task)
      requires Valid() && Produces(i, Ready(pos, x))
      modifies this, sequence, payload
      ensures Valid() && Produces(i, Written(pos, x)) && Done(Producer(i)) == old(Done(Producer(i)))
      ensures history == old(history) + [StorePayload(i)]
      ensures payload[..] == old(payload[..])[pos % payload.Length := Some(x)] && sequence[..] == old(sequence[..])
    {
      payload[pos % payload.Length] := Some(x);
      Follow(StorePayload(i));
    }

    method PublishSequence(i: nat, pos: nat, ghost x: Task)
      requires Valid() && Produces(i, Written(pos, x))
      modifies this, sequence, payload
      ensures Valid() && Produces(i, PIdle)
      ensures sequence[..] == old(sequence[..])[pos % sequence.Length := pos + 1] && payload[..] == old(payload[..])
      ensures Done(Producer(i)) == old(Done(Producer(i))) + [EnqueueReturned(i)]
      ensures history == old(history) + [Publish(i)]
    {
      sequence[pos % sequence.Length] := pos + 1;
      Follow(Publish(i));
    }

    /**
     * Appends `x` to the queue once, at the fetch-add.  It is over unless every one of the rounds looked at the
     * slot and found it held back by the ticket one generation before; a slot ready at once is not waited for.
     */
    method Enqueue(i: nat, x: Task, rounds: nat) returns (pos: nat, done: bool)
      requires Valid() && Produces(i, PIdle)
      modifies this, sequence, payload
      ensures Valid() && Produces(i, if done then PIdle else Reserved(pos, x))
      ensures pos == old(head)
      ensures Done(Producer(i)) ==
        old(Done(Producer(i))) + [Enqueued(i, x)] + if done then [EnqueueReturned(i)] else []
      ensures old(history) <= history
      ensures !done ==> Times(history, Await(i)) == old(Times(history, Await(i))) + rounds
      ensures !done ==> LookedInVain(RingStart(), history, |old(history)|, i, pos)
      ensures old(sequence[head % sequence.Length] == head) && rounds >= 1 ==> done
    {
      pos := FetchAddHead(i, x);
      TimesAfterAccess(Producer(i), old(history), Reserve(i, x), history, Await(i));
      NoLookYet(RingStart(), old(history), Reserve(i, x), history, i, pos);
      done := false;
      var k := 0;
      while !done && k < rounds
        invariant Valid() && Produces(i, if done then Ready(pos, x) else Reserved(pos, x))
        invariant pos == old(head) && Done(Producer(i)) == old(Done(Producer(i))) + [Enqueued(i, x)]
        invariant old(history) <= history && k <= rounds
        invariant Times(history, Await(i)) == old(Times(history, Await(i))) + k
        invariant !done ==> LookedInVain(RingStart(), history, |old(history)|, i, pos)
        invariant old(sequence[head % sequence.Length] == head) ==> if k == 0 then SlotIsReady(r, i) else done
      {
        done := LookOnce(i, pos, x, |old(history)|);
        k := k + 1;
      }
      if done {
        Fill(i, pos, x);
      }
    }

    /** Fills the slot that is ready for ticket `pos`, and shows it. */
    method Fill(i: nat, pos: nat, x: Task)
      requires Valid() && Produces(i, Ready(pos, x))
      modifies this, sequence, payload
      ensures Valid() && Produces(i, PIdle) && old(history) <= history
      ensures Done(Producer(i)) == old(Done(Producer(i))) + [EnqueueReturned(i)]
    {
      PutPayload(i, pos, x);
      Others(Producer(i));
      PublishSequence(i, pos, x);
    }

    // -------------------------------------------------------------- dequeue

    /** The call of a dequeue, and the load of its first ticket. */
    method CallDequeue(c: nat) returns (pos: nat)
      requires Valid() && Consumes(c, CIdle)
      modifies this, sequence, payload
      ensures Valid() && Looked(c, pos, |old(history)| + 1, 0) && pos == old(tail)
      ensures Done(Consumer(c)) == old(Done(Consumer(c))) + [DequeueCalled(c)]
      ensures old(history) + [StartDequeue(c)] <= history
      ensures Times(history, LoadSequence(c)) == old(Times(history, LoadSequence(c)))
      ensures StateOf(RingStart(), history[..|old(history)| + 1]).consumers == old(r.consumers)[c := Reload]
    {
      BeginSearch(c);
      ghost var run := history;
      pos := LookForTail(c, |history|, 0);
      assert history[..|run|] == run;
    }

    ghost method BeginSearch(c: nat)
      requires Valid() && Consumes(c, CIdle)
      modifies this`r, this`history
      ensures Valid() && Consumes(c, Reload) && history == old(history) + [StartDequeue(c)]
      ensures InSearch(RingStart(), history, |history|, c, 0)
      ensures Done(Consumer(c)) == old(Done(Consumer(c))) + [DequeueCalled(c)]
      ensures Times(history, LoadSequence(c)) == old(Times(history, LoadSequence(c)))
      ensures StateOf(RingStart(), history).consumers == old(r.consumers)[c := Reload]
    {
      Follow(StartDequeue(c));
      SearchBegins(RingStart(), history, r, history, r, c);
      RunMeans(RingStart(), history, r);
      TimesAfterAccess(Consumer(c), old(history), StartDequeue(c), history, LoadSequence(c));
    }

    method ReloadTail(c: nat) returns (pos: nat)
      requires Valid() && Consumes(c, Reload)
      modifies this, sequence, payload
      ensures Valid() && Consumes(c, GotTail(pos)) && pos == old(tail)
      ensures Done(Consumer(c)) == old(Done(Consumer(c))) && Accessed(Consumer(c), old(history), LoadTail(c), history)
    {
      pos := tail;
      Follow(LoadTail(c));
      Others(Consumer(c));
    }

    method LoadDiff(c: nat, pos: nat) returns (diff: int)
      requires Valid() && Consumes(c, GotTail(pos))
      modifies this, sequence, payload
      ensures Valid() && Consumes(c, if diff == 0 then SawFilled(pos) else if diff < 0 then CIdle else Reload)
      ensures diff == old(sequence[pos % sequence.Length]) - (pos + 1)
      ensures Done(Consumer(c)) == old(Done(Consumer(c))) + if diff < 0 then [AppearedEmpty(c)] else []
      ensures Accessed(Consumer(c), old(history), LoadSequence(c), history)
    {
      diff := sequence[pos % sequence.Length] - (pos + 1);
      Follow(LoadSequence(c));
      Others(Consumer(c));
    }

    /** `compare_exchange_weak` may fail though it need not; failing, it reloads the expected value. */
    method CasTailWeak(c: nat, pos: nat) returns (won: bool, now: nat, ghost spurious: bool)
      requires Valid() && Consumes(c, SawFilled(pos))
      modifies this, sequence, payload
      ensures Valid() && Consumes(c, if won then Won(pos) else GotTail(now))
      ensures now == old(tail) && won == (now == pos && !spurious)
      ensures Done(Consumer(c)) == old(Done(Consumer(c))) + if won then [TookFirst(c)] else []
      ensures Accessed(Consumer(c), old(history), CasTail(c, spurious), history)
    {
      var fails: bool := *;
      spurious := fails;
      won := tail == pos && !fails;
      now := tail;
      if won {
        tail := pos + 1;
      }
      Follow(CasTail(c, spurious));
      Others(Consumer(c));
    }

    method ExchangePayload(c: nat, pos: nat) returns (raw: Option<Task>)
      requires Valid() && Consumes(c, Won(pos))
      modifies this, sequence, payload
      ensures Valid() && Consumes(c, Took(pos, raw)) && Done(Consumer(c)) == old(Done(Consumer(c)))
      ensures raw.Some? && raw == old(payload[pos % payload.Length])
      ensures payload[..] == old(payload[..])[pos % payload.Length := None] && sequence[..] == old(sequence[..])
      ensures history == old(history) + [Exchange(c)]
    {
      raw := payload[pos % payload.Length];
      payload[pos % payload.Length] := None;
      Follow(Exchange(c));
      TakenIsTask(sequence.Length, producers, consumers, history, r, c);
    }

    method ReleaseSlot(c: nat, pos: nat, ghost raw: Option<Task>)
      requires Valid() && Consumes(c, Took(pos, raw))
      modifies this, sequence, payload
      ensures Valid() && Consumes(c, CIdle)
      ensures sequence[..] == old(sequence[..])[pos % sequence.Length := pos + sequence.Length]
      ensures payload[..] == old(payload[..])
      ensures Done(Consumer(c)) == old(Done(Consumer(c))) + [DequeueReturned(c, raw)]
      ensures history == old(history) + [Release(c)]
    {
      sequence[pos % sequence.Length] := pos + sequence.Length;
      Follow(Release(c));
    }

    /** What the winner of ticket `pos` does with its slot. */
    method Take(c: nat, pos: nat) returns (task: Option<Task>)
      requires Valid() && Consumes(c, Won(pos))
      modifies this, sequence, payload
      ensures Valid() && Consumes(c, CIdle) && task.Some? && old(history) <= history
      ensures Done(Consumer(c)) == old(Done(Consumer(c))) + [DequeueReturned(c, task)]
    {
      task := ExchangePayload(c, pos);
      Others(Consumer(c));
      ReleaseSlot(c, pos, task);
    }

    /** A dequeue on its way: its ticket is `pos`, and it has looked `rounds` times since step `since`. */
    ghost predicate Looked(c: nat, pos: nat, since: nat, rounds: nat)
      reads this
    {
      Consumes(c, GotTail(pos)) && InSearch(RingStart(), history, since, c, rounds)
    }

    /** A look at the slot of the ticket; `diff` above zero sends the call back for another ticket. */
    method LookAtSlot(c: nat, pos: nat, ghost since: nat, ghost rounds: nat) returns (diff: int)
      requires Valid() && Looked(c, pos, since, rounds)
      modifies this, sequence, payload
      ensures Valid() && Consumes(c, if diff == 0 then SawFilled(pos) else if diff < 0 then CIdle else Reload)
      ensures Done(Consumer(c)) == old(Done(Consumer(c))) + if diff < 0 then [AppearedEmpty(c)] else []
      ensures diff == old(sequence[pos % sequence.Length]) - (pos + 1) && old(history) <= history
      ensures Times(history, LoadSequence(c)) == old(Times(history, LoadSequence(c))) + 1
      ensures diff >= 0 ==> InSearch(RingStart(), history, since, c, rounds + if diff > 0 then 1 else 0)
    {
      ghost var run, m := history, r;
      diff := LoadDiff(c, pos);
      TimesAfterAccess(Consumer(c), run, LoadSequence(c), history, LoadSequence(c));
      if diff >= 0 {
        SearchContinues(RingStart(), run, m, LoadSequence(c), history, r, since, c, rounds);
      }
    }

    method LookForTail(c: nat, ghost since: nat, ghost rounds: nat) returns (pos: nat)
      requires Valid() && Consumes(c, Reload) && InSearch(RingStart(), history, since, c, rounds)
      modifies this, sequence, payload
      ensures Valid() && Looked(c, pos, since, rounds) && pos == old(tail)
      ensures Done(Consumer(c)) == old(Done(Consumer(c))) && old(history) <= history
      ensures Times(history, LoadSequence(c)) == old(Times(history, LoadSequence(c)))
    {
      ghost var run, m := history, r;
      pos := ReloadTail(c);
      TimesAfterAccess(Consumer(c), run, LoadTail(c), history, LoadSequence(c));
      SearchContinues(RingStart(), run, m, LoadTail(c), history, r, since, c, rounds);
    }

    /** The CAS on the ticket; failing, it is one more round made in vain. */
    method TryToClaim(c: nat, pos: nat, ghost since: nat, ghost rounds: nat) returns (won: bool, now: nat)
      requires Valid() && Consumes(c, SawFilled(pos)) && InSearch(RingStart(), history, since, c, rounds)
      modifies this, sequence, payload
      ensures Valid() && (if won then Consumes(c, Won(pos)) else Looked(c, now, since, rounds + 1))
      ensures Done(Consumer(c)) == old(Done(Consumer(c))) + if won then [TookFirst(c)] else []
      ensures Times(history, LoadSequence(c)) == old(Times(history, LoadSequence(c))) && old(history) <= history
    {
      ghost var run, m := history, r;
      ghost var spurious;
      won, now, spurious := CasTailWeak(c, pos);
      TimesAfterAccess(Consumer(c), run, CasTail(c, spurious), history, LoadSequence(c));
      if !won {
        SearchContinues(RingStart(), run, m, CasTail(c, spurious), history, r, since, c, rounds);
      }
    }

    /** One round of the retry loop: it ends the call, or has looked in vain. */
    method SearchOnce(c: nat, pos: nat, ghost since: nat, ghost rounds: nat)
      returns (task: Option<Task>, done: bool, next: nat)
      requires Valid() && Looked(c, pos, since, rounds)
      modifies this, sequence, payload
      ensures Valid() && (if done then Consumes(c, CIdle) else task.None? && Looked(c, next, since, rounds + 1))
      ensures Done(Consumer(c)) == old(Done(Consumer(c))) +
        if !done then [] else if task.Some? then [TookFirst(c), DequeueReturned(c, task)] else [AppearedEmpty(c)]
      ensures old(history) <= history
      ensures !done ==> Times(history, LoadSequence(c)) == old(Times(history, LoadSequence(c))) + 1
    {
      next := pos;
      var diff := LookAtSlot(c, pos, since, rounds);
      if diff == 0 {
        task, done, next := ClaimAndTake(c, pos, since, rounds);
      } else if diff < 0 {
        task, done := None, true;
      } else {
        next := LookForTail(c, since, rounds + 1);
        task, done := None, false;
      }
    }

    /** A filled slot: its task, unless the CAS fails. */
    method ClaimAndTake(c: nat, pos: nat, ghost since: nat, ghost rounds: nat)
      returns (task: Option<Task>, done: bool, next: nat)
      requires Valid() && Consumes(c, SawFilled(pos)) && InSearch(RingStart(), history, since, c, rounds)
      modifies this, sequence, payload
      ensures Valid() && done == task.Some?
      ensures if done then Consumes(c, CIdle) else Looked(c, next, since, rounds + 1)
      ensures Done(Consumer(c)) ==
        old(Done(Consumer(c))) + if done then [TookFirst(c), DequeueReturned(c, task)] else []
      ensures old(history) <= history
      ensures !done ==> Times(history, LoadSequence(c)) == old(Times(history, LoadSequence(c)))
    {
      done, next := TryToClaim(c, pos, since, rounds);
      task := None;
      if done {
        task := Take(c, pos);
      }
    }

    /**
     * Takes the first task of the queue atomically and returns it, or finds the queue empty-looking, unless each of
     * the rounds has looked at a slot in vain; and those are no more than the claims of other consumers since the
     * call and this one's own CASes that failed without cause.
     */
    method Dequeue(c: nat, rounds: nat) returns (task: Option<Task>, done: bool)
      requires Valid() && Consumes(c, CIdle)
      modifies this, sequence, payload
      ensures Valid() && (done ==> Consumes(c, CIdle)) && (task.Some? ==> done)
      ensures Done(Consumer(c)) == old(Done(Consumer(c))) + [DequeueCalled(c)] +
        if !done then [] else if task.Some? then [TookFirst(c), DequeueReturned(c, task)] else [AppearedEmpty(c)]
      ensures old(history) + [StartDequeue(c)] <= history
      ensures !done ==> Times(history, LoadSequence(c)) == old(Times(history, LoadSequence(c))) + rounds
      ensures !done ==>
        var begun, since := StateOf(RingStart(), history[..|old(history)| + 1]), history[|old(history)| + 1..];
        rounds <= ClaimsOfOthers(begun, since, c) + Times(since, CasTail(c, true))
    {
      ghost var since := |history| + 1;
      var pos := CallDequeue(c);
      ghost var called := history;
      task, done := None, false;
      var k := 0;
      while k < rounds && !done
        invariant Valid() && k <= rounds && called <= history
        invariant if done then Consumes(c, CIdle) else task.None? && Looked(c, pos, since, k)
        invariant !done ==> Times(history, LoadSequence(c)) == old(Times(history, LoadSequence(c))) + k
        invariant Done(Consumer(c)) == old(Done(Consumer(c))) + [DequeueCalled(c)] +
          if !done then [] else if task.Some? then [TookFirst(c), DequeueReturned(c, task)] else [AppearedEmpty(c)]
      {
        task, done, pos := SearchOnce(c, pos, since, k);
        k := k + 1;
      }
      if !done {
        assert history[..since] == called[..since];
        SearchIsPaidFor(RingStart(), history, r, since, c, rounds);
      }
    }
  }
}
