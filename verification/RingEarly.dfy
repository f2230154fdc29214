/**
 * Submissions to the ring scheduler before `run`, the first or a later one.  Nothing is consumed then, so the ring
 * takes exactly as many as it has slots: the submission after that waits for a slot that nobody will ever release.
 */
module RingEarly {
  import opened BagScheduler
  import opened RingScheduler
  import opened RingSchedulerCalls
  import opened RingSchedulerInvariant
  import opened RingSchedulerSteps
  import opened RingSchedulerTheorems
  import I = RingInvariant
  import R = RingModel
  import RS = RingSteps

  /** The producer of the thread that builds up to `run`. */
  function MainProducer(s: Rs): R.ProducerPc
    requires |s.workers| < |s.ring.producers|
  {
    s.ring.producers[|s.workers|]
  }

  /** The submissions so far hold the next tickets; every slot is waiting for, or serves, its next one. */
  ghost predicate EarlyOk(s: Rs)
    requires Sizes(s)
  {
    var r, pc, end := s.ring, MainProducer(s), s.ring.tail + |s.ring.slots|;
    && |r.turn| == |r.slots| && (forall j | 0 <= j < |r.turn| :: r.tail <= r.turn[j])
    && |s.bag.queued| == r.head - r.tail + (if s.main.Enqueuing? && pc.PIdle? then 1 else 0)
    && match pc
       case PIdle => r.head <= end
       case Reserved(pos, _) => pos + 1 == r.head && pos <= end
       case Ready(pos, _) => pos + 1 == r.head && pos < end
       case Written(pos, _) => pos + 1 == r.head && pos < end
  }

  /** With nothing consumed meanwhile, a reserved ticket finds its slot ready iff the ring has one for it. */
  lemma NextTurnSlot(r: R.Ring, pc: R.ProducerPc)
    requires I.Inv(r) && pc.Reserved? && I.ProducerOk(r, pc)
    requires pc.pos <= r.tail + |r.slots| && forall j | 0 <= j < |r.turn| :: r.tail <= r.turn[j]
    ensures r.slots[R.Home(r, pc.pos)].sequence == pc.pos <==> pc.pos < r.tail + |r.slots|
  {
    var pos := pc.pos;
    var c := r.turn[R.Home(r, pos)];
    assert I.SlotOk(r, R.Home(r, pos));
    if pos < r.tail {
      RS.ClaimedIsFilledOrReleased(r, pos);
      assert false;
    } else if c < pos {
      RS.SameHomeIsFar(r, c, pos);
    }
  }

  /** Before the launch a submission waits exactly when all slots have their next ticket already. */
  lemma EarlySlot(s: Rs)
    requires Inv(s) && EarlyOk(s) && MainProducer(s).Reserved?
    ensures s.ring.slots != []
    ensures
      var pos := MainProducer(s).pos;
      s.ring.slots[R.Home(s.ring, pos)].sequence == pos <==> pos < s.ring.tail + |s.ring.slots|
  {
    NextTurnSlot(s.ring, MainProducer(s));
  }

  lemma MainProducerKeepsEarly(s: Rs, st: R.RingStep)
    requires Inv(s) && EarlyOk(s) && !Launched(s) && Enabled(s, MainProducerStep(st))
    requires Sizes(Do(s, MainProducerStep(st)))
    ensures EarlyOk(Do(s, MainProducerStep(st)))
  {
    if st.Await? {
      EarlySlot(s);
    }
  }

  lemma StepKeepsEarly(s: Rs, step: RsStep)
    requires Inv(s) && EarlyOk(s) && !Launched(s) && Enabled(s, step) && Inv(Do(s, step)) && !Launched(Do(s, step))
    ensures EarlyOk(Do(s, step))
    ensures |Do(s, step).bag.queued| >= |s.bag.queued|
  {
    if step.MainProducerStep? {
      MainProducerKeepsEarly(s, step.st);
    }
  }

  lemma InitIsEarly(size: nat, n: nat)
    requires size >= 2
    ensures Inv(Init(size, n)) && EarlyOk(Init(size, n)) && !Launched(Init(size, n))
  {
    InitHasInv(size, n);
  }

  /** When `run` has returned, every ticket has been released: each slot waits for its next one. */
  lemma RestIsEarly(s: Rs)
    requires Inv(s) && Enabled(s, Rest) && Inv(Do(s, Rest))
    ensures EarlyOk(Do(s, Rest))
  {
    NothingQueuedMeansNothingOwed(s);
    AllReleasedMeansEarly(s.ring);
  }

  lemma NothingQueuedMeansNothingOwed(s: Rs)
    requires Inv(s) && s.main.Returned?
    ensures s.bag.queued == {} && s.ring.head == s.ring.tail && MainProducer(s).PIdle?
    ensures forall c | 0 <= c < |s.ring.consumers| :: s.ring.consumers[c].CIdle?
  {
    if Unclaimed(s.ring) != [] {
      assert Unclaimed(s.ring)[0] in multiset(Unclaimed(s.ring));
      OwedIsQueued(s, Unclaimed(s.ring)[0]);
    }
    forall c | 0 <= c < |s.ring.consumers|
      ensures s.ring.consumers[c].CIdle?
    {
      assert CallOk(s, c);
    }
  }

  /** A slot that still serves a claimed ticket has that ticket's consumer in it. */
  lemma LateTurnIsConsumed(r: R.Ring, j: nat)
    requires I.Inv(r) && j < |r.turn| && r.turn[j] < r.tail
    ensures I.Consumed(r.consumers, r.turn[j])
  {
    assert I.SlotOk(r, j);
    RS.ClaimedIsFilledOrReleased(r, r.turn[j]);
    assert I.Accounted(r, r.turn[j]);
  }

  lemma AllReleasedMeansEarly(r: R.Ring)
    requires I.Inv(r) && forall c | 0 <= c < |r.consumers| :: !I.Claiming(r.consumers[c])
    ensures forall j | 0 <= j < |r.turn| :: r.tail <= r.turn[j]
  {
    forall j | 0 <= j < |r.turn|
      ensures r.tail <= r.turn[j]
    {
      if r.turn[j] < r.tail {
        LateTurnIsConsumed(r, j);
      }
    }
  }

  lemma {:induction false} RunKeepsEarly(s: Rs, steps: seq<RsStep>, s': Rs)
    requires Inv(s) && (!Launched(s) ==> EarlyOk(s)) && Reaches(s, steps, s')
    ensures Inv(s') && (!Launched(s') ==> EarlyOk(s'))
    decreases |steps|
  {
    if steps != [] {
      StepKeepsInv(s, steps[0]);
      StepKeepsEarlyOrNot(s, steps[0]);
      RunKeepsEarly(Do(s, steps[0]), steps[1..], s');
    }
  }

  lemma StepKeepsEarlyOrNot(s: Rs, step: RsStep)
    requires Inv(s) && (!Launched(s) ==> EarlyOk(s)) && Enabled(s, step) && Inv(Do(s, step))
    ensures !Launched(Do(s, step)) ==> EarlyOk(Do(s, step))
  {
    if !Launched(Do(s, step)) {
      if Launched(s) {
        OnlyRestEnds(s, step);
        RestIsEarly(s);
      } else {
        StepKeepsEarly(s, step);
      }
    }
  }

  lemma OnlyRestEnds(s: Rs, step: RsStep)
    requires Enabled(s, step) && Launched(s) && !Launched(Do(s, step))
    ensures step.Rest?
  {
  }

  lemma StepKeepsSizes(s: Rs, step: RsStep)
    requires Enabled(s, step)
    ensures |Do(s, step).ring.slots| == |s.ring.slots| && |Do(s, step).workers| == |s.workers|
  {
  }

  lemma {:induction false} SizesStay(s: Rs, steps: seq<RsStep>, s': Rs)
    requires Reaches(s, steps, s')
    ensures |s'.ring.slots| == |s.ring.slots| && |s'.workers| == |s.workers|
    decreases |steps|
  {
    if steps != [] {
      StepKeepsSizes(s, steps[0]);
      SizesStay(Do(s, steps[0]), steps[1..], s');
    }
  }

  lemma ReachableIsEarly(size: nat, n: nat, s: Rs)
    requires Reachable(size, n, s)
    ensures Inv(s) && (!Launched(s) ==> EarlyOk(s)) && |s.ring.slots| == size && |s.workers| == n
  {
    var steps :| Reaches(Init(size, n), steps, s);
    InitIsEarly(size, n);
    RunKeepsEarly(Init(size, n), steps, s);
    SizesStay(Init(size, n), steps, s);
  }

  // ---------------------------------------------------------------- the ring takes as many as it has slots

  /** At the call of `run` no more has been submitted than the ring has slots. */
  lemma EarlySubmissionsFit(size: nat, n: nat, s: Rs)
    requires Reachable(size, n, s) && Enabled(s, CallRun)
    ensures |s.bag.queued| <= size
  {
    ReachableIsEarly(size, n, s);
  }

  /** An early submission is left waiting at its slot exactly when the ring's slots are all taken. */
  lemma EarlySubmissionWaits(size: nat, n: nat, s: Rs)
    requires Reachable(size, n, s) && s.main.Enqueuing? && |s.workers| < |s.ring.producers|
    requires MainProducer(s).Reserved?
    ensures Enabled(s, MainProducerStep(R.Await(n)))
    ensures Do(s, MainProducerStep(R.Await(n))) == s <==> |s.bag.queued| > size
  {
    ReachableIsEarly(size, n, s);
    EarlySlot(s);
  }

  /** One submission too many before `run`, and `run` is never reached: whatever follows, nothing is launched. */
  lemma {:induction false} OneTooManyStalls(size: nat, n: nat, s: Rs, steps: seq<RsStep>, s': Rs)
    requires Reachable(size, n, s) && !Launched(s) && |s.bag.queued| > size && Reaches(s, steps, s')
    ensures !Launched(s') && !s'.main.Building?
    decreases |steps|
  {
    ReachableIsEarly(size, n, s);
    if steps != [] {
      var s1 := Do(s, steps[0]);
      ReachableGoesOn(size, n, s, steps[0]);
      ReachableIsEarly(size, n, s1);
      StepKeepsEarly(s, steps[0]);
      OneTooManyStalls(size, n, s1, steps[1..], s');
    }
  }

  /** Each access of an early submission brings it on, but for the look at a slot the ring does not have. */
  lemma EarlyStepDoes(size: nat, n: nat, s: Rs)
    requires Reachable(size, n, s) && s.main.Enqueuing?
    ensures |s.workers| == n < |s.ring.producers|
    ensures
      var st := NextProducerStep(MainProducer(s), n, s.main.x);
      && Enabled(s, MainProducerStep(st))
      && |R.Do(s.ring, st).producers| == |s.ring.producers|
      && var pc, pc' := MainProducer(s), R.Do(s.ring, st).producers[n];
         && (|s.bag.queued| <= size ==>
               match pc
               case PIdle => pc'.Reserved?
               case Reserved(_, _) => pc'.Ready?
               case Ready(_, _) => pc'.Written?
               case Written(_, _) => pc'.PIdle? && st.Publish?)
         && (|s.bag.queued| > size ==> (pc.PIdle? || pc.Reserved?) && pc'.Reserved?)
  {
    ReachableIsEarly(size, n, s);
    if MainProducer(s).Reserved? {
      EarlySlot(s);
    }
  }

  // ---------------------------------------------------------------- runs the client does not see

  ghost predicate QuietRun(s: Rs, steps: seq<RsStep>, s': Rs)
    decreases |steps|
  {
    if steps == [] then s == s'
    else Enabled(s, steps[0]) && LabelOf(s, steps[0]) == Tau && QuietRun(Do(s, steps[0]), steps[1..], s')
  }

  /** An early submission can be finished as long as the ring has a slot for it. */
  lemma {:induction false} EnqueueCanFinish(size: nat, n: nat, s: Rs) returns (steps: seq<RsStep>, s': Rs)
    requires Reachable(size, n, s) && s.main.Enqueuing? && |s.bag.queued| <= size
    ensures QuietRun(s, steps, s') && Reachable(size, n, s') && s'.main.Building? && s'.bag == s.bag
    decreases
      if |s.workers| >= |s.ring.producers| then 0
      else match MainProducer(s)
           case PIdle => 4
           case Reserved(_, _) => 3
           case Ready(_, _) => 2
           case Written(_, _) => 1
  {
    ReachableIsEarly(size, n, s);
    EarlyStepDoes(size, n, s);
    var step := MainProducerStep(NextProducerStep(MainProducer(s), n, s.main.x));
    var s1 := Do(s, step);
    ReachableGoesOn(size, n, s, step);
    var rest := [];
    if step.st.Publish? {
      s' := s1;
    } else {
      rest, s' := EnqueueCanFinish(size, n, s1);
    }
    steps := [step] + rest;
    assert steps[1..] == rest;
  }
}
