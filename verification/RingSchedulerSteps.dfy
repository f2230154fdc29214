/** Every step of the ring scheduler keeps its invariant and is allowed by the bag. */
module RingSchedulerSteps {
  import opened Wrappers
  import opened BagScheduler
  import opened Multisets
  import opened RingScheduler
  import opened RingSchedulerInvariant
  import R = RingModel
  import I = RingInvariant
  import S = RingSteps

  // ---------------------------------------------------------------- one ring step

  /** What a producer's step does to what the ring owes. */
  ghost predicate ProducerMoved(r: R.Ring, r': R.Ring, i: nat, x: Task) {
    && r'.consumers == r.consumers && i < |r.producers| == |r'.producers|
    && r'.producers == r.producers[i := r'.producers[i]]
    && (!r'.producers[i].PIdle? ==> r'.producers[i].x == x)
    && if r.producers[i].PIdle? then !r'.producers[i].PIdle? && Owed(r') == Owed(r) + multiset{x}
       else Owed(r') == Owed(r)
  }

  lemma SameClaims(r: R.Ring, r': R.Ring)
    requires I.Inv(r) && r'.consumers == r.consumers && r.tickets <= r'.tickets
    ensures Claims(r') == Claims(r)
  {
    forall c | 0 <= c < |r.consumers|
      ensures Claims(r')[c] == Claims(r)[c]
    {
      assert I.ConsumerOk(r, r.consumers[c]);
    }
  }

  lemma ProducerEffect(r: R.Ring, i: nat, x: Task, st: R.RingStep)
    requires I.Inv(r) && ProducerMay(r, i, x, st)
    requires i < |r.producers| && !r.producers[i].PIdle? ==> r.producers[i].x == x
    ensures I.Inv(R.Do(r, st)) && ProducerMoved(r, R.Do(r, st), i, x)
    ensures R.Do(r, st).producers[i].PIdle? == st.Publish?
  {
    var r' := R.Do(r, st);
    S.StepKeepsInv(r, st);
    SameClaims(r, r');
    if st.Reserve? {
      assert Unclaimed(r') == Unclaimed(r) + [x];
    }
  }

  /** What a consumer's step does: it returns a task, or gives up, or moves on. */
  ghost predicate ConsumerMoved(r: R.Ring, r': R.Ring, c: nat, pc': WorkerPc) {
    && r'.producers == r.producers && c < |r.consumers| == |r'.consumers|
    && r'.consumers == r.consumers[c := r'.consumers[c]]
    && (r'.consumers[c].CIdle? <==> pc' != Dequeuing)
    && (pc' == Dequeuing || pc'.Running? || pc' == CheckShutdown)
    && if pc'.Running? then Owed(r') + multiset{pc'.t} == Owed(r) else Owed(r') == Owed(r)
  }

  lemma OneClaim(r: R.Ring, r': R.Ring, c: nat)
    requires c < |r.consumers| == |r'.consumers| && r'.consumers == r.consumers[c := r'.consumers[c]]
    requires r'.tickets == r.tickets
    ensures Sum(Claims(r')) + Claim(r, r.consumers[c]) == Sum(Claims(r)) + Claim(r', r'.consumers[c])
  {
    SumUpdate(Claims(r), c, Claim(r', r'.consumers[c]));
    assert Claims(r') == Claims(r)[c := Claim(r', r'.consumers[c])];
  }

  /** A winning CAS moves the first unclaimed task into the winner's claim. */
  lemma WinningMovesFirst(r: R.Ring, c: nat)
    requires I.Inv(r) && R.Enabled(r, R.CasTail(c, false)) && r.tail == r.consumers[c].pos
    ensures
      var r' := R.Do(r, R.CasTail(c, false));
      multiset(Unclaimed(r)) == multiset(Unclaimed(r')) + Claim(r', r'.consumers[c])
  {
    var pos := r.consumers[c].pos;
    assert I.ConsumerOk(r, r.consumers[c]) && I.SlotOk(r, R.Home(r, pos));
    MultisetFirst(Unclaimed(r));
    assert Unclaimed(r)[1..] == r.tickets[pos + 1..];
  }

  lemma ClaimBalance(u: multiset<Task>, u': multiset<Task>, l: multiset<Task>, l': multiset<Task>,
                     k: multiset<Task>, k': multiset<Task>, out: multiset<Task>)
    requires l' + k == l + k' && u + k == u' + k' + out
    ensures u' + l' + out == u + l
  {
    forall x
      ensures (u' + l' + out)[x] == (u + l)[x]
    {
      assert (l' + k)[x] == (l + k')[x];
      assert (u + k)[x] == (u' + k' + out)[x];
    }
  }

  lemma ConsumerEffect(r: R.Ring, c: nat, st: R.RingStep)
    requires I.Inv(r) && ConsumerMay(r, c, st) && c < |r.consumers| && !r.consumers[c].CIdle?
    ensures I.Inv(R.Do(r, st)) && c < |R.Do(r, st).consumers|
    ensures ConsumerMoved(r, R.Do(r, st), c, AfterConsumerStep(r, c, st, R.Do(r, st)))
  {
    var r' := R.Do(r, st);
    S.StepKeepsInv(r, st);
    ConsumerShape(r, c, st);
    OneClaim(r, r', c);
    var pc' := AfterConsumerStep(r, c, st, r');
    var out := if pc'.Running? then multiset{pc'.t} else multiset{};
    ConsumerClaims(r, c, st, out);
    ClaimBalance(multiset(Unclaimed(r)), multiset(Unclaimed(r')), Sum(Claims(r)), Sum(Claims(r')),
                 Claim(r, r.consumers[c]), Claim(r', r'.consumers[c]), out);
  }

  lemma ConsumerShape(r: R.Ring, c: nat, st: R.RingStep)
    requires ConsumerMay(r, c, st) && c < |r.consumers| && !r.consumers[c].CIdle?
    ensures
      var r' := R.Do(r, st);
      && r'.producers == r.producers && r'.tickets == r.tickets && |r'.consumers| == |r.consumers|
      && r'.consumers == r.consumers[c := r'.consumers[c]]
  {
  }

  /** The claim of consumer `c` and the unclaimed tickets before and after its step. */
  lemma ConsumerClaims(r: R.Ring, c: nat, st: R.RingStep, out: multiset<Task>)
    requires I.Inv(r) && ConsumerMay(r, c, st) && c < |r.consumers| == |R.Do(r, st).consumers| && !r.consumers[c].CIdle?
    requires
      var pc' := AfterConsumerStep(r, c, st, R.Do(r, st));
      out == if pc'.Running? then multiset{pc'.t} else multiset{}
    ensures
      var r' := R.Do(r, st);
      multiset(Unclaimed(r)) + Claim(r, r.consumers[c]) == multiset(Unclaimed(r')) + Claim(r', r'.consumers[c]) + out
  {
    if st.CasTail? {
      CasClaims(r, c, st.spurious);
    } else {
      assert I.ConsumerOk(r, r.consumers[c]);
    }
  }

  lemma CasClaims(r: R.Ring, c: nat, spurious: bool)
    requires I.Inv(r) && R.Enabled(r, R.CasTail(c, spurious))
    ensures
      var r' := R.Do(r, R.CasTail(c, spurious));
      && !r'.consumers[c].CIdle?
      && multiset(Unclaimed(r)) + Claim(r, r.consumers[c]) == multiset(Unclaimed(r')) + Claim(r', r'.consumers[c])
  {
    if r.tail == r.consumers[c].pos && !spurious {
      WinningMovesFirst(r, c);
    }
  }

  // ---------------------------------------------------------------- sums

  lemma OneWait(s: Rs, s': Rs, w: nat)
    requires Sizes(s) && Sizes(s') && w < |s.workers| == |s'.workers|
    requires forall u | 0 <= u < |s.workers| && u != w ::
      Unticketed(s'.workers[u], s'.ring.producers[u]) == Unticketed(s.workers[u], s.ring.producers[u])
    ensures Sum(Waits(s')) + Unticketed(s.workers[w], s.ring.producers[w])
         == Sum(Waits(s)) + Unticketed(s'.workers[w], s'.ring.producers[w])
  {
    var m := Unticketed(s'.workers[w], s'.ring.producers[w]);
    SumUpdate(Waits(s), w, m);
    assert Waits(s') == Waits(s)[w := m];
  }

  lemma SameWaits(s: Rs, s': Rs)
    requires Sizes(s) && Sizes(s') && |s'.workers| == |s.workers|
    requires forall u | 0 <= u < |s.workers| ::
      Unticketed(s'.workers[u], s'.ring.producers[u]) == Unticketed(s.workers[u], s.ring.producers[u])
    ensures Waits(s') == Waits(s)
  {
  }

  lemma OneHand(s: Rs, s': Rs, w: nat)
    requires w < |s.workers| == |s'.workers| && s'.workers == s.workers[w := s'.workers[w]]
    ensures Sum(Hands(s')) + InHand(s.workers[w]) == Sum(Hands(s)) + InHand(s'.workers[w])
  {
    SumUpdate(Hands(s), w, InHand(s'.workers[w]));
    assert Hands(s') == Hands(s)[w := InHand(s'.workers[w])];
  }

  lemma SameHands(s: Rs, s': Rs)
    requires |s'.workers| == |s.workers|
    requires forall u | 0 <= u < |s.workers| :: InHand(s'.workers[u]) == InHand(s.workers[u])
    ensures Hands(s') == Hands(s)
  {
  }

  lemma InHandIsRunning(s: Rs, w: nat)
    requires Sizes(s) && TasksOk(s) && w < |s.workers| && (s.workers[w].Running? || s.workers[w].Submitting?)
    ensures s.workers[w].t in s.bag.running
  {
    SummandIsPart(Hands(s), w);
    assert s.workers[w].t in Hands(s)[w];
    assert s.workers[w].t in Sum(Hands(s));
  }

  /** All queued tasks, by place. */
  function Queued(s: Rs): multiset<Task>
    requires Sizes(s)
  {
    Owed(s.ring) + Sum(Waits(s)) + MainUnticketed(s)
  }

  lemma OwedIsQueued(s: Rs, t: Task)
    requires Sizes(s) && TasksOk(s) && t in Owed(s.ring)
    ensures t in s.bag.queued
  {
    assert t in multiset(s.bag.queued);
  }

  // ---------------------------------------------------------------- tasks, label by label

  lemma TasksStay(s: Rs, s': Rs)
    requires Sizes(s) && Sizes(s') && TasksOk(s) && Queued(s') == Queued(s) && Sum(Hands(s')) == Sum(Hands(s))
    requires s'.pending == s.pending
    requires s'.bag.queued == s.bag.queued && s'.bag.running == s.bag.running && s'.bag.done == s.bag.done
    ensures TasksOk(s')
  {
  }

  lemma TaskSubmitted(s: Rs, s': Rs, x: Task)
    requires Sizes(s) && Sizes(s') && TasksOk(s) && Unseen(s.bag, x)
    requires Queued(s') == Queued(s) + multiset{x} && Sum(Hands(s')) == Sum(Hands(s))
    requires s'.pending == s.pending + 1 && s'.bag == s.bag.(queued := s.bag.queued + {x})
    ensures TasksOk(s')
  {
    AddTo(s.bag.queued, Queued(s), Queued(s'), x);
  }

  lemma TaskStarted(s: Rs, s': Rs, t: Task)
    requires Sizes(s) && Sizes(s') && TasksOk(s)
    requires Queued(s') + multiset{t} == Queued(s) && Sum(Hands(s')) == Sum(Hands(s)) + multiset{t}
    requires s'.pending == s.pending
    requires s'.bag == s.bag.(queued := s.bag.queued - {t}, running := s.bag.running + {t})
    ensures TasksOk(s')
  {
    TakeFrom(s.bag.queued, Queued(s), Queued(s'), t);
    AddTo(s.bag.running, Sum(Hands(s)), Sum(Hands(s')), t);
  }

  lemma TaskFinished(s: Rs, s': Rs, t: Task)
    requires Sizes(s) && Sizes(s') && TasksOk(s)
    requires Queued(s') == Queued(s) && Sum(Hands(s')) + multiset{t} == Sum(Hands(s))
    requires s'.pending == s.pending - 1
    requires s'.bag == s.bag.(running := s.bag.running - {t}, done := s.bag.done + {t})
    ensures TasksOk(s')
  {
    TakeFrom(s.bag.running, Sum(Hands(s)), Sum(Hands(s')), t);
  }

  lemma PendingZeroMeansQuiescent(s: Rs)
    requires Sizes(s) && TasksOk(s) && s.pending <= 0
    ensures Quiescent(s)
  {
  }

  // ---------------------------------------------------------------- the driver

  predicate IsDriverStep(step: RsStep) {
    || step.SubmitExternal? || step.CallRun? || step.SeeTasksPending? || step.SeePendingZero?
    || step.StoreShutdown? || step.JoinAll?
  }

  lemma SubmitExternalKeepsTasks(s: Rs, x: Task)
    requires Sizes(s) && CallsMatch(s) && TasksOk(s) && Enabled(s, SubmitExternal(x))
    ensures TasksOk(Do(s, SubmitExternal(x)))
  {
    var s' := Do(s, SubmitExternal(x));
    SameWaits(s, s');
    SameHands(s, s');
    assert MainUnticketed(s) == multiset{} && MainUnticketed(s') == multiset{x};
    assert Queued(s') == Queued(s) + multiset{x};
    TaskSubmitted(s, s', x);
  }

  /** Nothing moves but the driver's program counter and the flag. */
  lemma PlacesStay(s: Rs, s': Rs)
    requires Sizes(s) && TasksOk(s) && s'.ring == s.ring && s'.workers == s.workers && s'.pending == s.pending
    requires !s.main.Enqueuing? && !s'.main.Enqueuing?
    requires s'.bag.queued == s.bag.queued && s'.bag.running == s.bag.running && s'.bag.done == s.bag.done
    ensures Sizes(s') && TasksOk(s')
  {
    SameWaits(s, s');
    SameHands(s, s');
    TasksStay(s, s');
  }

  lemma DriverKeepsTasks(s: Rs, step: RsStep)
    requires Sizes(s) && CallsMatch(s) && TasksOk(s) && Enabled(s, step) && IsDriverStep(step)
    ensures TasksOk(Do(s, step))
  {
    if step.SubmitExternal? {
      SubmitExternalKeepsTasks(s, step.x);
    } else {
      var s' := Do(s, step);
      DriverLeavesPlaces(s, step);
      PlacesStay(s, s');
    }
  }

  lemma DriverLeavesPlaces(s: Rs, step: RsStep)
    requires Enabled(s, step) && IsDriverStep(step) && !step.SubmitExternal?
    ensures
      var s' := Do(s, step);
      && s'.ring == s.ring && s'.workers == s.workers && s'.pending == s.pending
      && !s.main.Enqueuing? && !s'.main.Enqueuing?
      && s'.bag.queued == s.bag.queued && s'.bag.running == s.bag.running && s'.bag.done == s.bag.done
  {
  }

  lemma DriverKeepsCalls(s: Rs, step: RsStep)
    requires Sizes(s) && CallsMatch(s) && Enabled(s, step) && IsDriverStep(step)
    ensures Sizes(Do(s, step)) && CallsMatch(Do(s, step))
  {
    var s' := Do(s, step);
    forall w | 0 <= w < |s'.workers|
      ensures CallOk(s', w)
    {
      assert CallOk(s, w);
    }
  }

  lemma DriverKeepsEnd(s: Rs, step: RsStep)
    requires Sizes(s) && CallsMatch(s) && EndOk(s) && Enabled(s, step) && IsDriverStep(step)
    requires step.SeePendingZero? ==> Quiescent(s)
    ensures EndOk(Do(s, step))
  {
    assert forall w | 0 <= w < |s.workers| :: CallOk(s, w);
  }

  lemma DriverKeepsRest(s: Rs, step: RsStep)
    requires SchedulerOk(s) && Enabled(s, step) && IsDriverStep(step)
    ensures SchedulerOk(Do(s, step)) && Do(s, step).ring == s.ring
  {
    DriverKeepsTasks(s, step);
    DriverKeepsCalls(s, step);
    if step.SeePendingZero? {
      PendingZeroMeansQuiescent(s);
    }
    DriverKeepsEnd(s, step);
  }

  // ---------------------------------------------------------------- producers

  lemma TicketBalance(o: multiset<Task>, o': multiset<Task>, l: multiset<Task>, l': multiset<Task>,
                      u: multiset<Task>, u': multiset<Task>, m: multiset<Task>)
    requires l' + u == l + u' && o' + u' == o + u
    ensures o' + l' + m == o + l + m
  {
    forall x
      ensures (o' + l' + m)[x] == (o + l + m)[x]
    {
      assert (l' + u)[x] == (l + u')[x];
      assert (o' + u')[x] == (o + u)[x];
    }
  }

  /** The end of the run is not announced while a worker still has something to do. */
  lemma WorkerKeepsEnd(s: Rs, s': Rs, w: nat)
    requires EndOk(s) && Launched(s) && w < |s.workers| == |s'.workers| && s'.main == s.main
    requires s'.shutdown == s.shutdown
    requires !s.workers[w].Exited? && s'.workers == s.workers[w := s'.workers[w]]
    requires Quiescent(s) ==> Quiescent(s')
    requires s'.workers[w].Exited? ==> s.shutdown
    requires s'.bag.launched == s.bag.launched && s'.bag.returned == s.bag.returned
    ensures EndOk(s')
  {
  }

  lemma ProducerKeepsTasks(s: Rs, s': Rs, w: nat)
    requires Sizes(s) && Sizes(s') && TasksOk(s) && w < |s.workers| && s.workers[w].Submitting?
    requires ProducerMoved(s.ring, s'.ring, w, s.workers[w].x)
    requires s' == s.(ring := s'.ring, workers := s.workers[w := s'.workers[w]])
    requires s'.workers[w] == if s'.ring.producers[w].PIdle? then Running(s.workers[w].t) else s.workers[w]
    ensures TasksOk(s')
  {
    ProducerKeepsPlaces(s, s', w);
    TasksStay(s, s');
  }

  lemma ProducerKeepsPlaces(s: Rs, s': Rs, w: nat)
    requires Sizes(s) && Sizes(s') && w < |s.workers| && s.workers[w].Submitting?
    requires ProducerMoved(s.ring, s'.ring, w, s.workers[w].x)
    requires s' == s.(ring := s'.ring, workers := s.workers[w := s'.workers[w]])
    requires s'.workers[w] == if s'.ring.producers[w].PIdle? then Running(s.workers[w].t) else s.workers[w]
    ensures Queued(s') == Queued(s) && Sum(Hands(s')) == Sum(Hands(s))
  {
    OneWait(s, s', w);
    SameHands(s, s');
    MainWaitsAsBefore(s, s', w);
    TicketIsOwed(s, s', w);
    TicketBalance(Owed(s.ring), Owed(s'.ring), Sum(Waits(s)), Sum(Waits(s')),
                  Unticketed(s.workers[w], s.ring.producers[w]), Unticketed(s'.workers[w], s'.ring.producers[w]),
                  MainUnticketed(s));
  }

  lemma MainWaitsAsBefore(s: Rs, s': Rs, w: nat)
    requires Sizes(s) && Sizes(s') && w < |s.workers| == |s'.workers| && s'.main == s.main
    requires s'.ring.producers == s.ring.producers[w := s'.ring.producers[w]]
    ensures MainUnticketed(s') == MainUnticketed(s)
  {
  }

  lemma TicketIsOwed(s: Rs, s': Rs, w: nat)
    requires Sizes(s) && Sizes(s') && w < |s.workers| == |s'.workers| && s.workers[w].Submitting?
    requires ProducerMoved(s.ring, s'.ring, w, s.workers[w].x)
    requires s'.workers[w] == if s'.ring.producers[w].PIdle? then Running(s.workers[w].t) else s.workers[w]
    ensures Owed(s'.ring) + Unticketed(s'.workers[w], s'.ring.producers[w])
         == Owed(s.ring) + Unticketed(s.workers[w], s.ring.producers[w])
  {
  }

  lemma ProducerKeepsCalls(s: Rs, s': Rs, w: nat)
    requires Sizes(s) && Sizes(s') && CallsMatch(s) && Launched(s) && w < |s.workers| && s.workers[w].Submitting?
    requires ProducerMoved(s.ring, s'.ring, w, s.workers[w].x)
    requires s' == s.(ring := s'.ring, workers := s.workers[w := s'.workers[w]])
    requires s'.workers[w] == if s'.ring.producers[w].PIdle? then Running(s.workers[w].t) else s.workers[w]
    ensures CallsMatch(s')
  {
    forall u | 0 <= u < |s'.workers|
      ensures CallOk(s', u)
    {
      assert CallOk(s, u);
    }
  }

  /** Taking a ticket moves the task being submitted into the ring; later producer steps move nothing. */
  lemma ProducerKeepsRest(s: Rs, s': Rs, w: nat)
    requires SchedulerOk(s) && Launched(s) && w < |s.workers| == |s'.workers| && s.workers[w].Submitting? && Sizes(s')
    requires ProducerMoved(s.ring, s'.ring, w, s.workers[w].x)
    requires s' == s.(ring := s'.ring, workers := s.workers[w := s'.workers[w]])
    requires s'.workers[w] == if s'.ring.producers[w].PIdle? then Running(s.workers[w].t) else s.workers[w]
    ensures SchedulerOk(s')
  {
    ProducerKeepsCalls(s, s', w);
    ProducerKeepsTasks(s, s', w);
    WorkerKeepsEnd(s, s', w);
  }

  lemma MainProducerKeepsRest(s: Rs, s': Rs)
    requires SchedulerOk(s) && s.main.Enqueuing? && Sizes(s')
    requires ProducerMoved(s.ring, s'.ring, |s.workers|, s.main.x)
    requires s' == s.(ring := s'.ring, main := s'.main)
    requires s'.main == if s'.ring.producers[|s.workers|].PIdle? then Building else s.main
    ensures SchedulerOk(s')
  {
    forall u | 0 <= u < |s'.workers|
      ensures CallOk(s', u)
    {
      assert CallOk(s, u);
    }
    SameWaits(s, s');
    SameHands(s, s');
    MainTicketBalance(Owed(s.ring), Owed(s'.ring), Sum(Waits(s)), MainUnticketed(s), MainUnticketed(s'));
    TasksStay(s, s');
  }

  lemma MainTicketBalance(o: multiset<Task>, o': multiset<Task>, l: multiset<Task>, m: multiset<Task>,
                          m': multiset<Task>)
    requires o' + m' == o + m
    ensures o' + l + m' == o + l + m
  {
    forall x
      ensures (o' + l + m')[x] == (o + l + m)[x]
    {
      assert (o' + m')[x] == (o + m)[x];
    }
  }

  lemma MainProducerStepKeepsInv(s: Rs, st: R.RingStep)
    requires Inv(s) && Enabled(s, MainProducerStep(st))
    ensures Inv(Do(s, MainProducerStep(st)))
  {
    ProducerEffect(s.ring, |s.workers|, s.main.x, st);
    MainProducerKeepsRest(s, Do(s, MainProducerStep(st)));
  }

  lemma ProducerStepKeepsInv(s: Rs, w: nat, st: R.RingStep)
    requires Inv(s) && Enabled(s, ProducerStep(w, st))
    ensures Inv(Do(s, ProducerStep(w, st)))
  {
    assert CallOk(s, w);
    ProducerEffect(s.ring, w, s.workers[w].x, st);
    ProducerKeepsRest(s, Do(s, ProducerStep(w, st)), w);
  }

  // ---------------------------------------------------------------- consumers

  lemma StartDequeueEffect(r: R.Ring, c: nat)
    requires I.Inv(r) && R.Enabled(r, R.StartDequeue(c))
    ensures I.Inv(R.Do(r, R.StartDequeue(c)))
    ensures ConsumerMoved(r, R.Do(r, R.StartDequeue(c)), c, Dequeuing)
  {
    var r' := R.Do(r, R.StartDequeue(c));
    S.StepKeepsInv(r, R.StartDequeue(c));
    assert Claims(r') == Claims(r);
  }

  lemma ConsumerKeepsCalls(s: Rs, s': Rs, w: nat, pc': WorkerPc)
    requires Sizes(s) && CallsMatch(s) && Launched(s) && w < |s.workers|
    requires (s.workers[w].AtTop? || s.workers[w].Dequeuing?)
    requires ConsumerMoved(s.ring, s'.ring, w, pc')
    requires s'.workers == s.workers[w := pc'] && s'.main == s.main
    ensures Sizes(s') && CallsMatch(s')
  {
    assert CallOk(s, w);
    forall u | 0 <= u < |s'.workers|
      ensures CallOk(s', u)
    {
      assert CallOk(s, u);
    }
  }

  lemma ReturningKeepsTasks(s: Rs, s': Rs, w: nat, t: Task)
    requires Sizes(s) && Sizes(s') && TasksOk(s) && w < |s.workers| && s.workers[w].Dequeuing?
    requires ConsumerMoved(s.ring, s'.ring, w, Running(t))
    requires s'.workers == s.workers[w := Running(t)] && s'.main == s.main && s'.pending == s.pending
    requires s'.bag == s.bag.(queued := s.bag.queued - {t}, running := s.bag.running + {t})
    ensures TasksOk(s')
  {
    SameWaits(s, s');
    OneHand(s, s', w);
    assert MainUnticketed(s') == MainUnticketed(s);
    DequeueBalance(Owed(s.ring), Owed(s'.ring), Sum(Waits(s)), MainUnticketed(s), t);
    TaskStarted(s, s', t);
  }

  lemma LookingKeepsTasks(s: Rs, s': Rs, w: nat, pc': WorkerPc)
    requires Sizes(s) && Sizes(s') && TasksOk(s) && w < |s.workers| && (s.workers[w].AtTop? || s.workers[w].Dequeuing?)
    requires ConsumerMoved(s.ring, s'.ring, w, pc') && !pc'.Running?
    requires s'.workers == s.workers[w := pc'] && s'.main == s.main && s'.pending == s.pending && s'.bag == s.bag
    ensures TasksOk(s')
  {
    SameWaits(s, s');
    SameHands(s, s');
    assert MainUnticketed(s') == MainUnticketed(s);
    TasksStay(s, s');
  }

  lemma DequeueBalance(o: multiset<Task>, o': multiset<Task>, l: multiset<Task>, m: multiset<Task>, t: Task)
    requires o' + multiset{t} == o
    ensures o' + l + m + multiset{t} == o + l + m
  {
    forall x
      ensures (o' + l + m + multiset{t})[x] == (o + l + m)[x]
    {
      assert (o' + multiset{t})[x] == o[x];
    }
  }

  /** A consumer's thread enters, continues or leaves its dequeue. */
  lemma ConsumerKeepsRest(s: Rs, s': Rs, w: nat, pc': WorkerPc)
    requires SchedulerOk(s) && Launched(s) && w < |s.workers|
    requires s.workers[w].Dequeuing? || (s.workers[w].AtTop? && pc' == Dequeuing)
    requires ConsumerMoved(s.ring, s'.ring, w, pc')
    requires s'.workers == s.workers[w := pc'] && s'.main == s.main && s'.pending == s.pending
    requires s'.shutdown == s.shutdown
    requires
      s'.bag == if pc'.Running? then s.bag.(queued := s.bag.queued - {pc'.t}, running := s.bag.running + {pc'.t})
                else s.bag
    ensures SchedulerOk(s')
  {
    ConsumerKeepsCalls(s, s', w, pc');
    if pc'.Running? {
      ReturningKeepsTasks(s, s', w, pc'.t);
      assert pc'.t in Owed(s'.ring) + multiset{pc'.t};
      OwedIsQueued(s, pc'.t);
    } else {
      LookingKeepsTasks(s, s', w, pc');
    }
    WorkerKeepsEnd(s, s', w);
  }

  lemma ConsumerStepKeepsInv(s: Rs, w: nat, st: R.RingStep)
    requires Inv(s) && Enabled(s, ConsumerStep(w, st))
    ensures Inv(Do(s, ConsumerStep(w, st)))
  {
    assert CallOk(s, w);
    ConsumerEffect(s.ring, w, st);
    ConsumerKeepsRest(s, Do(s, ConsumerStep(w, st)), w, AfterConsumerStep(s.ring, w, st, R.Do(s.ring, st)));
  }

  lemma StartDequeueKeepsInv(s: Rs, w: nat)
    requires Inv(s) && Enabled(s, StartDequeue(w))
    ensures Inv(Do(s, StartDequeue(w)))
  {
    StartDequeueEffect(s.ring, w);
    ConsumerKeepsRest(s, Do(s, StartDequeue(w)), w, Dequeuing);
  }

  // ---------------------------------------------------------------- workers between ring calls

  lemma LoopKeepsCalls(s: Rs, s': Rs, w: nat)
    requires Sizes(s) && CallsMatch(s) && Launched(s) && w < |s.workers| == |s'.workers|
    requires s'.ring == s.ring && s'.main == s.main && s'.workers == s.workers[w := s'.workers[w]]
    requires !s.workers[w].Dequeuing? && !s'.workers[w].Dequeuing? && !s.workers[w].Submitting?
    ensures Sizes(s') && CallsMatch(s')
  {
    forall u | 0 <= u < |s'.workers|
      ensures CallOk(s', u)
    {
      assert CallOk(s, u);
    }
  }

  lemma ChildKeepsTasks(s: Rs, s': Rs, w: nat, x: Task)
    requires Sizes(s) && TasksOk(s) && w < |s.workers| && s.workers[w].Running? && s.ring.producers[w].PIdle?
    requires Unseen(s.bag, x)
    requires s' == s.(pending := s.pending + 1, workers := s.workers[w := Submitting(s.workers[w].t, x)],
                      bag := s.bag.(queued := s.bag.queued + {x}))
    ensures TasksOk(s')
  {
    ChildIsPlaced(s, s', w, x);
    ChildBalance(Owed(s.ring), Sum(Waits(s)), MainUnticketed(s), x);
    TaskSubmitted(s, s', x);
  }

  lemma ChildIsPlaced(s: Rs, s': Rs, w: nat, x: Task)
    requires Sizes(s) && w < |s.workers| && s.workers[w].Running? && s.ring.producers[w].PIdle?
    requires s'.ring == s.ring && s'.main == s.main
    requires s'.workers == s.workers[w := Submitting(s.workers[w].t, x)]
    ensures Sizes(s') && Sum(Waits(s')) == Sum(Waits(s)) + multiset{x} && Sum(Hands(s')) == Sum(Hands(s))
    ensures MainUnticketed(s') == MainUnticketed(s)
  {
    OneWait(s, s', w);
    SameHands(s, s');
  }

  lemma ChildBalance(o: multiset<Task>, l: multiset<Task>, m: multiset<Task>, x: Task)
    ensures o + (l + multiset{x}) + m == o + l + m + multiset{x}
  {
  }

  lemma SubmitChildKeepsRest(s: Rs, w: nat, x: Task)
    requires SchedulerOk(s) && Enabled(s, SubmitChild(w, x))
    ensures SchedulerOk(Do(s, SubmitChild(w, x)))
  {
    var s' := Do(s, SubmitChild(w, x));
    assert CallOk(s, w);
    LoopKeepsCalls(s, s', w);
    InHandIsRunning(s, w);
    ChildKeepsTasks(s, s', w, x);
    WorkerKeepsEnd(s, s', w);
  }

  lemma DoneKeepsTasks(s: Rs, s': Rs, w: nat, t: Task)
    requires Sizes(s) && TasksOk(s) && w < |s.workers| && s.workers[w] == Running(t)
    requires s' == s.(pending := s.pending - 1, workers := s.workers[w := AtTop],
                      bag := s.bag.(running := s.bag.running - {t}, done := s.bag.done + {t}))
    ensures TasksOk(s')
  {
    DoneMoves(s, s', w, t);
    TaskFinished(s, s', t);
  }

  lemma DoneMoves(s: Rs, s': Rs, w: nat, t: Task)
    requires Sizes(s) && w < |s.workers| && s.workers[w] == Running(t)
    requires s'.ring == s.ring && s'.main == s.main && s'.workers == s.workers[w := AtTop]
    ensures Sizes(s') && Queued(s') == Queued(s) && Sum(Hands(s')) + multiset{t} == Sum(Hands(s))
  {
    SameWaits(s, s');
    OneHand(s, s', w);
  }

  lemma FinishTaskKeepsRest(s: Rs, w: nat)
    requires SchedulerOk(s) && Enabled(s, FinishTask(w))
    ensures SchedulerOk(Do(s, FinishTask(w)))
  {
    var s' := Do(s, FinishTask(w));
    assert CallOk(s, w);
    LoopKeepsCalls(s, s', w);
    DoneKeepsTasks(s, s', w, s.workers[w].t);
    WorkerKeepsEnd(s, s', w);
  }

  lemma LoadShutdownKeepsTasks(s: Rs, s': Rs, w: nat)
    requires Sizes(s) && TasksOk(s) && w < |s.workers| == |s'.workers| && s.workers[w].CheckShutdown?
    requires s' == s.(workers := s.workers[w := s'.workers[w]]) && (s'.workers[w].AtTop? || s'.workers[w].Exited?)
    ensures TasksOk(s')
  {
    LookingAway(s, s', w);
    TasksStay(s, s');
  }

  lemma LookingAway(s: Rs, s': Rs, w: nat)
    requires Sizes(s) && w < |s.workers| == |s'.workers| && s.workers[w].CheckShutdown?
    requires s' == s.(workers := s.workers[w := s'.workers[w]]) && (s'.workers[w].AtTop? || s'.workers[w].Exited?)
    ensures Sizes(s') && Queued(s') == Queued(s) && Sum(Hands(s')) == Sum(Hands(s))
  {
    SameWaits(s, s');
    SameHands(s, s');
  }

  lemma LoadShutdownKeepsRest(s: Rs, w: nat)
    requires SchedulerOk(s) && Enabled(s, LoadShutdown(w))
    ensures SchedulerOk(Do(s, LoadShutdown(w)))
  {
    var s' := Do(s, LoadShutdown(w));
    LoopKeepsCalls(s, s', w);
    LoadShutdownKeepsTasks(s, s', w);
    WorkerKeepsEnd(s, s', w);
  }

  // ---------------------------------------------------------------- all steps

  lemma StepKeepsInv(s: Rs, step: RsStep)
    requires Inv(s) && Enabled(s, step)
    ensures Inv(Do(s, step))
  {
    match step
    case MainProducerStep(st) => MainProducerStepKeepsInv(s, st);
    case StartDequeue(w) => StartDequeueKeepsInv(s, w);
    case ConsumerStep(w, st) => ConsumerStepKeepsInv(s, w, st);
    case ProducerStep(w, st) => ProducerStepKeepsInv(s, w, st);
    case SubmitChild(w, x) => SubmitChildKeepsRest(s, w, x);
    case FinishTask(w) => FinishTaskKeepsRest(s, w);
    case LoadShutdown(w) => LoadShutdownKeepsRest(s, w);
    case Rest => RestKeepsInv(s);
    case _ => DriverKeepsRest(s, step);
  }

  /** After `run` has returned the ring stays as it is, and new workers will start at the top of their loops. */
  lemma RestKeepsInv(s: Rs)
    requires Inv(s) && Enabled(s, Rest)
    ensures Inv(Do(s, Rest))
  {
    RestKeepsCalls(s);
    RestKeepsTasks(s, Do(s, Rest));
  }

  lemma RestKeepsCalls(s: Rs)
    requires Sizes(s) && CallsMatch(s) && EndOk(s) && Enabled(s, Rest)
    ensures Sizes(Do(s, Rest)) && CallsMatch(Do(s, Rest)) && EndOk(Do(s, Rest))
  {
    forall w | 0 <= w < |s.workers|
      ensures CallOk(Do(s, Rest), w)
    {
      assert CallOk(s, w);
    }
  }

  lemma RestKeepsTasks(s: Rs, s': Rs)
    requires Sizes(s) && TasksOk(s) && s.main.Returned? && s'.main.Building?
    requires s'.ring == s.ring && s'.pending == s.pending && |s'.workers| == |s.workers|
    requires s'.bag.queued == s.bag.queued && s'.bag.running == s.bag.running && s'.bag.done == s.bag.done
    requires forall w | 0 <= w < |s.workers| :: s.workers[w].Exited? && s'.workers[w].AtTop?
    ensures TasksOk(s')
  {
    SameWaits(s, s');
    SameHands(s, s');
    TasksStay(s, s');
  }

  lemma InitHasInv(size: nat, n: nat)
    requires size >= 2
    ensures Inv(Init(size, n))
  {
    S.InitHasInv(size, n + 1, n);
    InitTasksOk(size, n);
    InitCallsMatch(size, n);
  }

  lemma InitTasksOk(size: nat, n: nat)
    ensures TasksOk(Init(size, n))
  {
    NothingPlaced(size, n);
  }

  lemma InitCallsMatch(size: nat, n: nat)
    ensures Sizes(Init(size, n)) && CallsMatch(Init(size, n)) && EndOk(Init(size, n))
  {
  }

  lemma NothingPlaced(size: nat, n: nat)
    ensures Queued(Init(size, n)) == Sum(Hands(Init(size, n))) == multiset{}
  {
    SumOfEmpty(Claims(Init(size, n).ring));
    SumOfEmpty(Waits(Init(size, n)));
    SumOfEmpty(Hands(Init(size, n)));
  }

  /** The bag allows every label of the scheduler. */
  lemma StepAllowed(s: Rs, step: RsStep)
    requires Inv(s) && Enabled(s, step)
    ensures BagNext(s.bag, LabelOf(s, step), Do(s, step).bag)
  {
    match step
    case ConsumerStep(w, st) => ConsumerStartsQueued(s, w, st);
    case SubmitChild(w, x) => InHandIsRunning(s, w);
    case FinishTask(w) => InHandIsRunning(s, w);
    case _ =>
  }

  lemma ConsumerStartsQueued(s: Rs, w: nat, st: R.RingStep)
    requires Inv(s) && Enabled(s, ConsumerStep(w, st))
    ensures Allows(s.bag, LabelOf(s, ConsumerStep(w, st)))
  {
    assert CallOk(s, w);
    ConsumerEffect(s.ring, w, st);
    var pc := AfterConsumerStep(s.ring, w, st, R.Do(s.ring, st));
    if pc.Running? {
      assert pc.t in Owed(R.Do(s.ring, st)) + multiset{pc.t};
      OwedIsQueued(s, pc.t);
    }
  }
}
