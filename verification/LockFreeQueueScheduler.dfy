/**
 * The ring scheduler in the code's own form: `submit`, `run` and the worker loop.  Ring operations are
 * made step by step on the state of the ring's transition system.  Ghost fields follow the scheduler's
 * transition system; between any two accesses of a thread the others may do whatever they like.  Loops
 * that last until other threads have done something are given a number of rounds, any number, after which
 * the call is left standing.
 */
module LockFreeQueueSchedulers {
  import opened Wrappers
  import opened BagScheduler
  import opened BagTheorems
  import opened RingScheduler
  import opened RingSchedulerCalls
  import opened RingSchedulerInvariant
  import opened RingSchedulerRuns
  import opened RingSchedulerTheorems
  import E = RingEarly
  import Q = RingTheorems
  import R = RingModel
  import RI = RingInvariant

  // ---------------------------------------------------------------- what a thread's place is

  predicate RingUnmoved(w: nat, r: R.Ring, r': R.Ring) {
    && |r'.slots| == |r.slots| && |r'.turn| == |r.turn| && r.tickets <= r'.tickets
    && |r'.producers| == |r.producers| && (w < |r.producers| ==> r'.producers[w] == r.producers[w])
    && |r'.consumers| == |r.consumers| && (w < |r.consumers| ==> r'.consumers[w] == r.consumers[w])
  }

  /** What the steps of others leave to agent `me`, once the workers are launched. */
  ghost predicate Unmoved(me: Agent, s: Rs, s': Rs) {
    && Remembers(s.bag, s'.bag) && Launched(s') && |s'.workers| == |s.workers|
    && match me
       case Main => s'.main == s.main
       case AtWorker(w) => (w < |s.workers| ==> s'.workers[w] == s.workers[w]) && RingUnmoved(w, s.ring, s'.ring)
  }

  /** Until `run` has returned, any step of another agent respects what `Others` promises below. */
  lemma OthersLeaveMine(me: Agent, s: Rs, step: RsStep)
    requires Launched(s) && !s.main.Returned? && Enabled(s, step) && By(step) != me
    ensures Unmoved(me, s, Do(s, step))
  {
    AfterRemembers(s.bag, LabelOf(s, step));
  }

  // ---------------------------------------------------------------- what a thread finds

  /** The loop's place in its calls agrees with the ring. */
  lemma PlacesAgree(size: nat, n: nat, steps: seq<RsStep>, s: Rs, w: nat)
    requires size >= 2 && Reaches(Init(size, n), steps, s)
    ensures |s.ring.slots| == |s.ring.turn| >= 1
    ensures |s.ring.consumers| == |s.workers| && |s.ring.producers| == |s.workers| + 1
    ensures w < |s.workers| ==> (s.ring.consumers[w].CIdle? <==> !s.workers[w].Dequeuing?)
    ensures w < |s.workers| && !s.ring.producers[w].PIdle? ==> s.workers[w].Submitting?
    ensures w < |s.workers| && s.workers[w].Exited? ==> Quiescent(s) && s.pending == 0
  {
    ReachableHasInv(size, n, steps, s);
    if w < |s.workers| {
      assert CallOk(s, w);
    }
  }

  /** The claim a dequeue holds does not depend on what others enqueue meanwhile. */
  lemma CallStays(size: nat, n: nat, steps: seq<RsStep>, s: Rs, w: nat, r': R.Ring)
    requires size >= 2 && Reaches(Init(size, n), steps, s) && RingUnmoved(w, s.ring, r') && w < |s.ring.consumers|
    ensures Q.CallOf(r', r'.consumers[w]) == Q.CallOf(s.ring, s.ring.consumers[w])
  {
    ReachableHasInv(size, n, steps, s);
    assert RI.ConsumerOk(s.ring, s.ring.consumers[w]);
  }

  lemma RingHasInv(size: nat, n: nat, steps: seq<RsStep>, s: Rs)
    requires size >= 2 && Reaches(Init(size, n), steps, s)
    ensures RI.Inv(s.ring)
  {
    ReachableHasInv(size, n, steps, s);
  }

  lemma ReturnMeans(size: nat, n: nat, steps: seq<RsStep>, s: Rs)
    requires size >= 2 && Reaches(Init(size, n), steps, s) && s.main.Returned?
    ensures AllRanOnce(Labels(Init(size, n), steps)) && Unclaimed(s.ring) == []
  {
    var labels := Labels(Init(size, n), steps);
    RunReturnsWhenAllIsDone(size, n, steps, s, 0);
    forall t
      ensures Starts(labels, t) == Finishes(labels, t) == Submissions(labels, t) <= 1
    {
      RunReturnsWhenAllIsDone(size, n, steps, s, t);
    }
  }

  lemma {:induction false} LabelsOfRest(s: Rs, run: seq<RsStep>)
    ensures Labels(s, run + [Rest]) == Labels(s, run) || Labels(s, run + [Rest]) == Labels(s, run) + [Reuse]
    decreases |run|
  {
    if run == [] {
      assert [Rest][1..] == [];
      assert run + [Rest] == [Rest];
    } else {
      assert (run + [Rest])[1..] == run[1..] + [Rest];
      if Enabled(s, run[0]) {
        LabelsOfRest(Do(s, run[0]), run[1..]);
      }
    }
  }

  class LockFreeQueueScheduler {
    var ring: R.Ring
    var pending: int
    var shutdown: bool
    const size: nat
    const n: nat
    ghost var history: seq<RsStep>
    ghost var s: Rs

    ghost predicate Sound()
      reads this
    {
      size >= 2 && Reaches(Init(size, n), history, s)
    }

    /** The fields are what the transition system says they are. */
    ghost predicate Valid()
      reads this
    {
      Sound() && s.ring == ring && s.pending == pending && s.shutdown == shutdown && |s.workers| == n
    }

    /** Worker `w` is at place `pc` of its loop. */
    ghost predicate IsAt(w: nat, pc: WorkerPc)
      reads this
    {
      Worker(s, w) && s.workers[w] == pc
    }

    constructor (size: nat, n: nat)
      requires size >= 2
      ensures Valid() && s == Init(size, n) && history == [] && this.size == size && this.n == n
    {
      this.size, this.n := size, n;
      ring, pending, shutdown := R.Init(size, n + 1, n), 0, false;
      history, s := [], Init(size, n);
    }

    // -------------------------------------------------------------- single accesses

    ghost method Follow(step: RsStep)
      requires Sound() && Enabled(s, step)
      modifies this`s, this`history
      ensures Sound() && s == Do(old(s), step) && history == old(history) + [step]
    {
      RunGoesOn(Init(size, n), history, s, step);
      s, history := Do(s, step), history + [step];
    }

    /** Any steps of the other agents.  Only this contract is known of them; see `OthersLeaveMine`. */
    method Others(ghost me: Agent)
      requires Valid() && Launched(s)
      modifies this
      ensures Valid() && Unmoved(me, old(s), s) && OthersOnly(me, old(history), history)
    {
    }

    // -------------------------------------------------------------- submit

    ghost predicate InEnqueue(w: nat, since: nat, t: Task, x: Task, done: bool)
      reads this
    {
      && since <= |history| && EnqueueSoFar(size, n, history, since, w, ring, x, done)
      && IsAt(w, if done then Running(t) else Submitting(t, x))
    }

    /** One access of `enqueue` by a worker. */
    method AdvanceEnqueue(w: nat, ghost since: nat, ghost t: Task, x: Task) returns (done: bool)
      requires Valid() && InEnqueue(w, since, t, x, false)
      modifies this`ring, this`s, this`history
      ensures Valid() && InEnqueue(w, since, t, x, done) && Remembers(old(s).bag, s.bag)
      ensures old(history) <= history
      ensures Accesses(AtWorker(w), history) == old(Accesses(AtWorker(w), history)) + 1
    {
      PlacesAgree(size, n, history, s, w);
      var st := NextProducerStep(ring.producers[w], w, x);
      AfterRemembers(s.bag, LabelOf(s, ProducerStep(w, st)));
      EnqueueStepSoFar(size, n, history, s, ProducerStep(w, st), since, w, x);
      OneAccess(AtWorker(w), history, ProducerStep(w, st));
      done := st.Publish?;
      ring := R.Do(ring, st);
      Follow(ProducerStep(w, st));
    }

    method CountChild(w: nat, ghost t: Task, x: Task)
      requires Valid() && IsAt(w, Running(t)) && Unseen(s.bag, x)
      modifies this
      ensures Valid() && IsAt(w, Submitting(t, x)) && !Unseen(s.bag, x) && old(history) <= history
      ensures w < |ring.producers| && ring.producers[w].PIdle?
      ensures Accesses(AtWorker(w), history) == old(Accesses(AtWorker(w), history)) + 1
    {
      PlacesAgree(size, n, history, s, w);
      OneAccess(AtWorker(w), history, SubmitChild(w, x));
      pending := pending + 1;
      Follow(SubmitChild(w, x));
      ghost var run := history;
      Others(AtWorker(w));
      AccessesAfterOthers(AtWorker(w), run, history);
    }

    /**
     * `submit` from inside a task: counted first, then appended to the queue; over unless all the rounds have made
     * their accesses without coming to its end.
     */
    method SubmitFromTask(w: nat, ghost t: Task, x: Task, rounds: nat) returns (done: bool)
      requires Valid() && IsAt(w, Running(t)) && Unseen(s.bag, x)
      modifies this
      ensures Valid() && IsAt(w, if done then Running(t) else Submitting(t, x)) && !Unseen(s.bag, x)
      ensures done ==> Appended(size, n, history, old(|history|), w, x)
      ensures old(history) <= history
      ensures !done ==> Accesses(AtWorker(w), history) == old(Accesses(AtWorker(w), history)) + rounds + 1
    {
      CountChild(w, t, x);
      ghost var since := old(|history|);
      done := false;
      var k := 0;
      while k < rounds && !done
        invariant Valid() && InEnqueue(w, since, t, x, done) && !Unseen(s.bag, x)
        invariant k <= rounds && old(history) <= history
        invariant Accesses(AtWorker(w), history) == old(Accesses(AtWorker(w), history)) + k + 1
      {
        done := EnqueueOnce(w, since, t, x);
        k := k + 1;
      }
    }

    /** One access of `enqueue`, and what others do after it. */
    method EnqueueOnce(w: nat, ghost since: nat, ghost t: Task, x: Task) returns (done: bool)
      requires Valid() && InEnqueue(w, since, t, x, false)
      modifies this
      ensures Valid() && InEnqueue(w, since, t, x, done) && Remembers(old(s).bag, s.bag) && old(history) <= history
      ensures Accesses(AtWorker(w), history) == old(Accesses(AtWorker(w), history)) + 1
    {
      done := AdvanceEnqueue(w, since, t, x);
      ghost var run, r := history, ring;
      Others(AtWorker(w));
      EnqueueSoFarStays(size, n, run, history, since, w, r, ring, x, done);
      AccessesAfterOthers(AtWorker(w), run, history);
    }

    /** How many accesses an early submission still has to make. */
    function AccessesLeft(): nat
      reads this
      requires n < |ring.producers|
    {
      match ring.producers[n]
      case PIdle => 4
      case Reserved(_, _) => 3
      case Ready(_, _) => 2
      case Written(_, _) => 1
    }

    ghost predicate InEarly(since: nat, x: Task, done: bool)
      reads this
    {
      && since <= |history| && EnqueueSoFar(size, n, history, since, n, ring, x, done)
      && s.main == if done then Building else Enqueuing(x)
    }

    /** One access of `enqueue` before `run`: it makes progress exactly if the ring has a slot for the task. */
    method AdvanceEarly(ghost since: nat, x: Task) returns (done: bool)
      requires Valid() && InEarly(since, x, false)
      modifies this`ring, this`s, this`history
      ensures Valid() && InEarly(since, x, done) && s.bag == old(s).bag
      ensures n < |ring.producers| == |old(ring).producers|
      ensures |s.bag.queued| <= size ==>
        if done then old(AccessesLeft()) == 1 else AccessesLeft() == old(AccessesLeft()) - 1
      ensures |s.bag.queued| > size ==> !done
    {
      PlacesAgree(size, n, history, s, n);
      E.EarlyStepDoes(size, n, s);
      var st := NextProducerStep(ring.producers[n], n, x);
      EnqueueStepSoFar(size, n, history, s, MainProducerStep(st), since, n, x);
      done := st.Publish?;
      ring := R.Do(ring, st);
      Follow(MainProducerStep(st));
    }

    method CountEarly(x: Task)
      requires Valid() && s.main.Building? && Unseen(s.bag, x)
      modifies this`pending, this`s, this`history
      ensures Valid() && s.main == Enqueuing(x) && !Unseen(s.bag, x) && pending == old(pending) + 1
      ensures n < |ring.producers| && ring.producers[n].PIdle? && |s.bag.queued| == ring.head - ring.tail + 1
      ensures |history| == |old(history)| + 1 && ring == old(ring)
    {
      E.ReachableIsEarly(size, n, s);
      pending := pending + 1;
      Follow(SubmitExternal(x));
    }

    /**
     * `submit` before `run`.  Nobody consumes yet: the task is appended and the call over after four accesses if
     * the ring has a slot for it; otherwise the call waits, for however many rounds.
     */
    method SubmitBeforeRun(x: Task, rounds: nat) returns (done: bool)
      requires Valid() && s.main.Building? && Unseen(s.bag, x)
      modifies this
      ensures Valid() && s.main == (if done then Building else Enqueuing(x)) && pending == old(pending) + 1
      ensures !Unseen(s.bag, x) && (done ==> Appended(size, n, history, old(|history|), n, x))
      ensures done <==> old(ring.head - ring.tail) < size && rounds >= 4
    {
      CountEarly(x);
      ghost var since := old(|history|);
      done := false;
      var k := 0;
      while k < rounds && !done
        invariant Valid() && InEarly(since, x, done) && pending == old(pending) + 1 && !Unseen(s.bag, x)
        invariant |s.bag.queued| == old(ring.head - ring.tail) + 1 && n < |ring.producers| && k <= rounds
        invariant |s.bag.queued| <= size ==> if done then k == 4 else k < 4 && AccessesLeft() == 4 - k
        invariant |s.bag.queued| > size ==> !done
      {
        done := AdvanceEarly(since, x);
        k := k + 1;
      }
    }

    // -------------------------------------------------------------- the worker loop

    ghost predicate InDequeue(w: nat, since: nat, task: Option<Task>, over: bool)
      reads this
    {
      && since <= |history| && DequeueSoFar(size, n, history, since, w, ring, task)
      && IsAt(w, if !over then Dequeuing else if task.Some? then Running(task.value) else CheckShutdown)
    }

    method StartOne(w: nat)
      requires Valid() && IsAt(w, AtTop)
      modifies this`ring, this`s, this`history
      ensures Valid() && InDequeue(w, old(|history|), None, false) && old(history) <= history
      ensures Accesses(AtWorker(w), history) == old(Accesses(AtWorker(w), history)) + 1
    {
      PlacesAgree(size, n, history, s, w);
      OneAccess(AtWorker(w), history, StartDequeue(w));
      ring := R.Do(ring, R.StartDequeue(w));
      Follow(StartDequeue(w));
    }

    /** One access of `dequeue`. */
    method AdvanceDequeue(w: nat, ghost since: nat, ghost before: Option<Task>) returns (task: Option<Task>, over: bool)
      requires Valid() && InDequeue(w, since, before, false)
      modifies this`ring, this`s, this`history
      ensures Valid() && InDequeue(w, since, task, over) && old(history) <= history
      ensures Accesses(AtWorker(w), history) == old(Accesses(AtWorker(w), history)) + 1
    {
      PlacesAgree(size, n, history, s, w);
      RingHasInv(size, n, history, s);
      var spurious: bool := *;
      DequeueStepSoFar(size, n, history, s, since, w, spurious, before);
      OneAccess(AtWorker(w), history, ConsumerStep(w, NextConsumerStep(ring.consumers[w], w, spurious)));
      task, over := AccessSlot(w, spurious);
    }

    method AccessSlot(w: nat, spurious: bool) returns (task: Option<Task>, over: bool)
      requires Valid() && IsAt(w, Dequeuing) && w < |ring.consumers| && !ring.consumers[w].CIdle?
      requires R.Enabled(ring, NextConsumerStep(ring.consumers[w], w, spurious))
      modifies this`ring, this`s, this`history
      ensures Valid() && ring == R.Do(old(ring), NextConsumerStep(old(ring).consumers[w], w, spurious))
      ensures history == old(history) + [ConsumerStep(w, NextConsumerStep(old(ring).consumers[w], w, spurious))]
      ensures w < |ring.consumers| && over == ring.consumers[w].CIdle? && task == HandsBack(old(ring), w)
      ensures IsAt(w, if !over then Dequeuing else if task.Some? then Running(task.value) else CheckShutdown)
    {
      var st := NextConsumerStep(ring.consumers[w], w, spurious);
      task := HandsBack(ring, w);
      ring := R.Do(ring, st);
      over := ring.consumers[w].CIdle?;
      Follow(ConsumerStep(w, st));
    }

    /** One access of `dequeue`, and what others do after it. */
    method DequeueOnce(w: nat, ghost since: nat, ghost before: Option<Task>) returns (task: Option<Task>, over: bool)
      requires Valid() && InDequeue(w, since, before, false)
      modifies this
      ensures Valid() && InDequeue(w, since, task, over) && old(history) <= history
      ensures Accesses(AtWorker(w), history) == old(Accesses(AtWorker(w), history)) + 1
    {
      task, over := AdvanceDequeue(w, since, before);
      ghost var run, made := history, s;
      Others(AtWorker(w));
      CallStays(size, n, run, made, w, ring);
      DequeueSoFarStays(size, n, run, history, since, w, made.ring, ring, task);
      AccessesAfterOthers(AtWorker(w), run, history);
    }

    /**
     * A dequeue, with what it comes to; a task it returns was the first of the queue when it took it.  It is over
     * unless all the rounds have made their accesses without coming to its end.
     */
    method Dequeue(w: nat, rounds: nat) returns (task: Option<Task>, over: bool)
      requires Valid() && IsAt(w, AtTop)
      modifies this
      ensures Valid()
      ensures IsAt(w, if !over then Dequeuing else if task.Some? then Running(task.value) else CheckShutdown)
      ensures over ==>
        if task.Some? then TookFirstTask(size, n, history, old(|history|), w, task)
        else AnsweredEmpty(size, n, history, old(|history|), w)
      ensures old(history) <= history && Accesses(AtWorker(w), history) > old(Accesses(AtWorker(w), history))
      ensures !over ==> Accesses(AtWorker(w), history) == old(Accesses(AtWorker(w), history)) + rounds + 1
    {
      StartOne(w);
      ghost var since := old(|history|);
      task, over := None, false;
      var k := 0;
      while k < rounds && !over
        invariant Valid() && InDequeue(w, since, task, over) && k <= rounds && old(history) <= history
        invariant Accesses(AtWorker(w), history) == old(Accesses(AtWorker(w), history)) + k + 1
      {
        task, over := DequeueOnce(w, since, task);
        k := k + 1;
      }
      PlacesAgree(size, n, history, s, w);
    }

    /** The task's own code, submissions included (see `SubmitFromTask`). */
    method RunTask(w: nat, ghost t: Task)
      requires Valid() && IsAt(w, Running(t))
      modifies this
      ensures Valid() && IsAt(w, Running(t)) && old(history) <= history
    {
      Others(AtWorker(w));
    }

    method RunAndCount(w: nat, ghost t: Task)
      requires Valid() && IsAt(w, Running(t))
      modifies this
      ensures Valid() && IsAt(w, AtTop) && t in s.bag.done && old(history) <= history
    {
      RunTask(w, t);
      pending := pending - 1;
      Follow(RsStep.FinishTask(w));
      Others(AtWorker(w));
    }

    method CheckShutdownFlag(w: nat) returns (leave: bool)
      requires Valid() && IsAt(w, CheckShutdown)
      modifies this
      ensures Valid() && IsAt(w, if leave then Exited else AtTop) && leave == old(shutdown)
      ensures old(history) <= history
    {
      leave := shutdown;
      Follow(LoadShutdown(w));
      Others(AtWorker(w));
    }

    /**
     * One round of the loop: the first task of the queue is run and counted; or the queue has answered empty, and the
     * worker leaves or not as the flag says; or the dequeue has used up its rounds.
     */
    method Round(w: nat, rounds: nat) returns (over: bool, left: bool)
      requires Valid() && IsAt(w, AtTop)
      modifies this
      ensures Valid() && IsAt(w, if !over then Dequeuing else if left then Exited else AtTop)
      ensures over ==>
        || RanFirst(size, n, history, old(|history|), w, s.bag)
        || AnsweredEmpty(size, n, history, old(|history|), w)
      ensures left ==> over && AnsweredEmpty(size, n, history, old(|history|), w)
      ensures old(history) <= history && Accesses(AtWorker(w), history) > old(Accesses(AtWorker(w), history))
      ensures !over ==> Accesses(AtWorker(w), history) == old(Accesses(AtWorker(w), history)) + rounds + 1
    {
      var task;
      task, over := Dequeue(w, rounds);
      left := false;
      if over {
        ghost var run := history;
        if task.Some? {
          RunAndCount(w, task.value);
          HappenedStays(size, n, run, history, old(|history|), Q.TookFirst(w), task);
        } else {
          left := CheckShutdownFlag(w);
          AnsweredEmptyStays(size, n, run, history, old(|history|), w);
        }
        AccessesGrow(AtWorker(w), run, history);
      }
    }

    /**
     * A worker leaves its loop only when no task is left anywhere; otherwise it has made as many accesses as it was
     * given rounds, and is at the loop's top or inside a dequeue.
     */
    method WorkerLoop(w: nat, rounds: nat) returns (left: bool)
      requires Valid() && IsAt(w, AtTop)
      modifies this
      ensures Valid() && (left ==> IsAt(w, Exited) && pending == 0 && Quiescent(s))
      ensures !left ==> IsAt(w, AtTop) || IsAt(w, Dequeuing)
      ensures old(history) <= history
      ensures !left ==> Accesses(AtWorker(w), history) >= old(Accesses(AtWorker(w), history)) + rounds
    {
      left := false;
      var over, k := true, 0;
      while k < rounds && over && !left
        invariant Valid() && IsAt(w, if !over then Dequeuing else if left then Exited else AtTop)
        invariant k <= rounds && old(history) <= history && (left ==> over)
        invariant Accesses(AtWorker(w), history) >= old(Accesses(AtWorker(w), history)) + if over then k else rounds
      {
        over, left := Round(w, rounds);
        k := k + 1;
      }
      PlacesAgree(size, n, history, s, w);
    }

    // -------------------------------------------------------------- run

    /** Polls `pending_`, at most so many times, until it is zero. */
    method AwaitZero(polls: nat) returns (zero: bool)
      requires Valid() && s.main == Waiting
      modifies this
      ensures Valid() && s.main == if zero then Stopping else Waiting
      ensures old(history) <= history
      ensures !zero ==> Times(history, SeeTasksPending) == old(Times(history, SeeTasksPending)) + polls
      ensures old(pending) == 0 && polls >= 1 ==> zero
    {
      zero := false;
      var k := 0;
      while k < polls && !zero
        invariant Valid() && s.main == if zero then Stopping else Waiting
        invariant old(history) <= history && k <= polls
        invariant !zero ==> Times(history, SeeTasksPending) == old(Times(history, SeeTasksPending)) + k
        invariant if k == 0 then pending == old(pending) else old(pending) == 0 ==> zero
      {
        zero := Poll();
        k := k + 1;
      }
    }

    /** One load of `pending_` by `run`. */
    method Poll() returns (zero: bool)
      requires Valid() && s.main == Waiting
      modifies this
      ensures Valid() && s.main == if zero then Stopping else Waiting
      ensures old(history) <= history && zero == (old(pending) <= 0)
      ensures !zero ==> Times(history, SeeTasksPending) == old(Times(history, SeeTasksPending)) + 1
    {
      zero := pending <= 0;
      Follow(if zero then SeePendingZero else SeeTasksPending);
      ghost var run := history;
      Others(Main);
      TimesAfterOthers(Main, run, history, SeeTasksPending);
    }

    /**
     * Joining waits for all workers to leave their loops; it may have to wait for ever.  Only the contract is
     * meant.
     */
    method Join() returns (joined: bool)
      requires Valid() && s.main == Joining
      modifies this
      ensures Valid() && s.main == Joining && (joined ==> Enabled(s, JoinAll)) && old(history) <= history
    {
      joined := false;
    }

    /** Nothing is left to do: the scheduler can be used again. */
    ghost method BeReused()
      requires Valid() && s.main.Returned?
      modifies this`s, this`history
      ensures Valid() && s.main.Building? && history == old(history) + [Rest]
    {
      Follow(Rest);
    }

    /** The call of `run`, up to its first poll. */
    method Launch()
      requires Valid() && s.main.Building?
      modifies this
      ensures Valid() && s.main == Waiting && old(history) + [CallRun] <= history
      ensures old(pending) == 0 ==> pending == 0
    {
      shutdown := false;
      Follow(CallRun);
      ghost var run, m := history, s;
      Others(Main);
      if m.pending == 0 {
        ZeroStaysAmongOthers(size, n, run, m, history, s);
      }
    }

    /** `run` has returned: every task ever submitted has been started once and finished once, and the ring is empty. */
    ghost predicate HasReturned()
      reads this
    {
      s.main.Building? && Unclaimed(ring) == [] && AllRanOnce(Labels(Init(size, n), history))
    }

    /**
     * Launches the workers and waits.  If `run` returns, every task ever submitted has been started once and finished
     * once, and the ring is empty.  The scheduler can then be used again.
     */
    method Run(polls: nat) returns (returned: bool)
      requires Valid() && s.main.Building?
      modifies this
      ensures Valid() && old(history) + [CallRun] <= history
      ensures !returned ==> Launched(s) && (s.main == Waiting || s.main == Joining)
      ensures !returned && s.main == Waiting ==> PolledInVain(history, old(|history|), polls)
      ensures old(pending) == 0 && polls >= 1 ==> returned || s.main == Joining
      ensures returned ==> HasReturned()
    {
      Launch();
      ghost var launched := history;
      var zero := AwaitZero(polls);
      returned := false;
      if zero {
        StopWorkers();
        returned := Join();
        if returned {
          ReturnFromRun();
        }
      } else {
        assert history[..|launched|] == launched;
      }
    }

    method StopWorkers()
      requires Valid() && s.main == Stopping
      modifies this
      ensures Valid() && s.main == Joining && old(history) + [StoreShutdown] <= history
    {
      shutdown := true;
      Follow(StoreShutdown);
      Others(Main);
    }

    /** All workers have been joined: `run` returns. */
    ghost method ReturnFromRun()
      requires Valid() && s.main == Joining && Enabled(s, JoinAll)
      modifies this`s, this`history
      ensures Valid() && HasReturned() && old(history) <= history
    {
      Follow(JoinAll);
      ReturnMeans(size, n, history, s);
      ghost var run := history;
      BeReused();
      LabelsOfRest(Init(size, n), run);
      ReuseChangesNothing(Labels(Init(size, n), run));
    }
  }
}
