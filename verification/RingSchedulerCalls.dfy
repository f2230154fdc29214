/** Calls on the ring made step by step: the next access of a call in progress, and what the call has done so far. */
module RingSchedulerCalls {
  import opened Wrappers
  import opened RingScheduler
  import opened RingSchedulerInvariant
  import I = RingInvariant
  import Q = RingTheorems
  import R = RingModel

  /** The next step of `enqueue(x)` by producer `i`. */
  function NextProducerStep(pc: R.ProducerPc, i: nat, x: Task): R.RingStep {
    match pc
    case PIdle => R.Reserve(i, x)
    case Reserved(_, _) => R.Await(i)
    case Ready(_, _) => R.StorePayload(i)
    case Written(_, _) => R.Publish(i)
  }

  /** The next step of `dequeue` by consumer `c`; its CAS may fail spuriously. */
  function NextConsumerStep(pc: R.ConsumerPc, c: nat, spurious: bool): R.RingStep
    requires !pc.CIdle?
  {
    match pc
    case Reload => R.LoadTail(c)
    case GotTail(_) => R.LoadSequence(c)
    case SawFilled(_) => R.CasTail(c, spurious)
    case Won(_) => R.Exchange(c)
    case Took(_, _) => R.Release(c)
  }

  // ---------------------------------------------------------------- what a step does to the ring

  function StateAfter(s: Rs, steps: seq<RsStep>): Rs
    decreases |steps|
  {
    if steps == [] || !Enabled(s, steps[0]) then s else StateAfter(Do(s, steps[0]), steps[1..])
  }

  lemma {:induction false} ReachesStateAfter(s: Rs, steps: seq<RsStep>, s': Rs)
    requires Reaches(s, steps, s')
    ensures StateAfter(s, steps) == s'
    decreases |steps|
  {
    if steps != [] {
      ReachesStateAfter(Do(s, steps[0]), steps[1..], s');
    }
  }

  function FirstOf(s: Rs): Option<Task> {
    if Unclaimed(s.ring) == [] then None else Some(Unclaimed(s.ring)[0])
  }

  /** The step of the scheduler is event `e` of the ring's queue, and `x` the task that is first in it then. */
  predicate IsEvent(s: Rs, step: RsStep, e: Q.Event, x: Option<Task>) {
    && Enabled(s, step)
    && x == FirstOf(s)
    && match step
       case MainProducerStep(st) => Q.EventOf(s.ring, st) == e
       case ProducerStep(_, st) => Q.EventOf(s.ring, st) == e
       case ConsumerStep(_, st) => Q.EventOf(s.ring, st) == e
       case _ => false
  }

  /** Since step `since` of the run event `e` has happened, and `x` was the first task in the queue then. */
  ghost predicate Happened(size: nat, n: nat, run: seq<RsStep>, since: nat, e: Q.Event, x: Option<Task>) {
    exists k :: since <= k < |run| && IsEvent(StateAfter(Init(size, n), run[..k]), run[k], e, x)
  }

  /** Since step `since` a dequeue of `w` has taken the first task, and that was `x` ... */
  ghost predicate TookFirstTask(size: nat, n: nat, run: seq<RsStep>, since: nat, w: nat, x: Option<Task>) {
    Happened(size, n, run, since, Q.TookFirst(w), x)
  }

  /** ... or has found the queue empty, or its first task's enqueue still open ... */
  ghost predicate AnsweredEmpty(size: nat, n: nat, run: seq<RsStep>, since: nat, w: nat) {
    exists first :: Happened(size, n, run, since, Q.AppearedEmpty(w), first)
  }

  /** ... and producer `i` has appended `x`. */
  ghost predicate Appended(size: nat, n: nat, run: seq<RsStep>, since: nat, i: nat, x: Task) {
    exists first :: Happened(size, n, run, since, Q.Enqueued(i, x), first)
  }

  lemma HappensNow(size: nat, n: nat, run: seq<RsStep>, s: Rs, step: RsStep, since: nat, e: Q.Event, x: Option<Task>)
    requires Reaches(Init(size, n), run, s) && IsEvent(s, step, e, x) && since <= |run|
    ensures Happened(size, n, run + [step], since, e, x)
  {
    ReachesStateAfter(Init(size, n), run, s);
    assert (run + [step])[..|run|] == run && (run + [step])[|run|] == step;
  }

  lemma HappenedStays(size: nat, n: nat, run: seq<RsStep>, run': seq<RsStep>, since: nat, e: Q.Event, x: Option<Task>)
    requires Happened(size, n, run, since, e, x) && run <= run'
    ensures Happened(size, n, run', since, e, x)
  {
    var k :| since <= k < |run| && IsEvent(StateAfter(Init(size, n), run[..k]), run[k], e, x);
    assert run'[..k] == run[..k] && run'[k] == run[k];
  }

  lemma AnsweredEmptyStays(size: nat, n: nat, run: seq<RsStep>, run': seq<RsStep>, since: nat, w: nat)
    requires AnsweredEmpty(size, n, run, since, w) && run <= run'
    ensures AnsweredEmpty(size, n, run', since, w)
  {
    var first :| Happened(size, n, run, since, Q.AppearedEmpty(w), first);
    HappenedStays(size, n, run, run', since, Q.AppearedEmpty(w), first);
  }

  lemma AppendedStays(size: nat, n: nat, run: seq<RsStep>, run': seq<RsStep>, since: nat, i: nat, x: Task)
    requires Appended(size, n, run, since, i, x) && run <= run'
    ensures Appended(size, n, run', since, i, x)
  {
    var first :| Happened(size, n, run, since, Q.Enqueued(i, x), first);
    HappenedStays(size, n, run, run', since, Q.Enqueued(i, x), first);
  }

  // ---------------------------------------------------------------- a call and its events

  /** What must have happened since step `since`, given where the dequeue of `w` is by now. */
  ghost predicate DequeueSoFar(size: nat, n: nat, run: seq<RsStep>, since: nat, w: nat, r: R.Ring, task: Option<Task>) {
    && w < |r.consumers|
    && match Q.CallOf(r, r.consumers[w])
       case NoCall =>
         if task.Some? then TookFirstTask(size, n, run, since, w, task) else AnsweredEmpty(size, n, run, since, w)
       case Searching => true
       case Due(due) => TookFirstTask(size, n, run, since, w, due)
  }

  /** What a step that ends a dequeue returns. */
  function HandsBack(r: R.Ring, w: nat): Option<Task>
    requires w < |r.consumers|
  {
    if r.consumers[w].Took? then r.consumers[w].raw else None
  }

  /** A dequeue takes the first task once, and returns the task it has taken. */
  lemma DequeueStepTells(r: R.Ring, w: nat, spurious: bool)
    requires I.Inv(r) && w < |r.consumers| && !r.consumers[w].CIdle?
    ensures
      var st := NextConsumerStep(r.consumers[w], w, spurious);
      && R.Enabled(r, st) && |R.Do(r, st).consumers| == |r.consumers|
      && var call, call' := Q.CallOf(r, r.consumers[w]), Q.CallOf(R.Do(r, st), R.Do(r, st).consumers[w]);
         match call'
         case NoCall =>
           if HandsBack(r, w).Some? then call == Q.Due(HandsBack(r, w))
           else call == Q.Searching && Q.EventOf(r, st) == Q.AppearedEmpty(w)
         case Searching => true
         case Due(due) =>
           || call == Q.Due(due)
           || (Q.EventOf(r, st) == Q.TookFirst(w) && Unclaimed(r) != [] && due == Some(Unclaimed(r)[0]))
  {
    var st := NextConsumerStep(r.consumers[w], w, spurious);
    assert I.ConsumerOk(r, r.consumers[w]);
    if st.CasTail? && r.tail == r.consumers[w].pos && !spurious {
      assert I.SlotOk(r, R.Home(r, r.tail));
      assert Unclaimed(r)[0] == r.tickets[r.tail];
    }
  }

  lemma DequeueStepSoFar(size: nat, n: nat, run: seq<RsStep>, s: Rs, since: nat, w: nat, spurious: bool,
                         task: Option<Task>)
    requires Reaches(Init(size, n), run, s) && I.Inv(s.ring) && since <= |run|
    requires w < |s.ring.consumers| && !s.ring.consumers[w].CIdle?
    requires Enabled(s, ConsumerStep(w, NextConsumerStep(s.ring.consumers[w], w, spurious)))
    requires DequeueSoFar(size, n, run, since, w, s.ring, task)
    ensures
      var st := NextConsumerStep(s.ring.consumers[w], w, spurious);
      && R.Enabled(s.ring, st)
      && DequeueSoFar(size, n, run + [ConsumerStep(w, st)], since, w, R.Do(s.ring, st), HandsBack(s.ring, w))
  {
    var r, st := s.ring, NextConsumerStep(s.ring.consumers[w], w, spurious);
    DequeueStepTells(r, w, spurious);
    var call, call' := Q.CallOf(r, r.consumers[w]), Q.CallOf(R.Do(r, st), R.Do(r, st).consumers[w]);
    if call.Due? {
      HappenedStays(size, n, run, run + [ConsumerStep(w, st)], since, Q.TookFirst(w), call.r);
    } else if call'.Due? {
      HappensNow(size, n, run, s, ConsumerStep(w, st), since, Q.TookFirst(w), call'.r);
    } else if call'.NoCall? {
      HappensNow(size, n, run, s, ConsumerStep(w, st), since, Q.AppearedEmpty(w), FirstOf(s));
    }
  }

  lemma DequeueSoFarStays(size: nat, n: nat, run: seq<RsStep>, run': seq<RsStep>, since: nat, w: nat,
                          r: R.Ring, r': R.Ring, task: Option<Task>)
    requires DequeueSoFar(size, n, run, since, w, r, task) && run <= run'
    requires w < |r'.consumers| && Q.CallOf(r', r'.consumers[w]) == Q.CallOf(r, r.consumers[w])
    ensures DequeueSoFar(size, n, run', since, w, r', task)
  {
    match Q.CallOf(r, r.consumers[w])
    case NoCall =>
      if task.Some? {
        HappenedStays(size, n, run, run', since, Q.TookFirst(w), task);
      } else {
        AnsweredEmptyStays(size, n, run, run', since, w);
      }
    case Searching =>
    case Due(due) => HappenedStays(size, n, run, run', since, Q.TookFirst(w), due);
  }

  /** An enqueue has appended its task once it has a ticket. */
  ghost predicate EnqueueSoFar(size: nat, n: nat, run: seq<RsStep>, since: nat, i: nat, r: R.Ring, x: Task,
                               done: bool) {
    i < |r.producers| && (done || !r.producers[i].PIdle? ==> Appended(size, n, run, since, i, x))
  }

  lemma EnqueueStepSoFar(size: nat, n: nat, run: seq<RsStep>, s: Rs, step: RsStep, since: nat, i: nat, x: Task)
    requires Reaches(Init(size, n), run, s) && since <= |run| && i < |s.ring.producers|
    requires EnqueueSoFar(size, n, run, since, i, s.ring, x, false)
    requires Enabled(s, step) && (step.ProducerStep? || step.MainProducerStep?)
    requires step.st == NextProducerStep(s.ring.producers[i], i, x)
    ensures R.Enabled(s.ring, step.st)
    ensures EnqueueSoFar(size, n, run + [step], since, i, R.Do(s.ring, step.st), x, step.st.Publish?)
  {
    if s.ring.producers[i].PIdle? {
      HappensNow(size, n, run, s, step, since, Q.Enqueued(i, x), FirstOf(s));
    } else {
      AppendedStays(size, n, run, run + [step], since, i, x);
    }
  }

  lemma EnqueueSoFarStays(size: nat, n: nat, run: seq<RsStep>, run': seq<RsStep>, since: nat, i: nat,
                          r: R.Ring, r': R.Ring, x: Task, done: bool)
    requires EnqueueSoFar(size, n, run, since, i, r, x, done) && run <= run'
    requires i < |r'.producers| && r'.producers[i] == r.producers[i]
    ensures EnqueueSoFar(size, n, run', since, i, r', x, done)
  {
    if done || !r.producers[i].PIdle? {
      AppendedStays(size, n, run, run', since, i, x);
    }
  }
}
