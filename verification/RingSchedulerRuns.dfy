/** Runs of the ring scheduler as one thread lives through them: what it has done since some step. */
module RingSchedulerRuns {
  import opened Wrappers
  import opened BagScheduler
  import opened RingScheduler
  import opened RingSchedulerCalls
  import opened RingSchedulerInvariant
  import opened RingSchedulerSteps
  import opened RingSchedulerTheorems

  datatype Agent = Main | AtWorker(w: nat)

  function By(step: RsStep): Agent {
    match step
    case StartDequeue(w) => AtWorker(w)
    case ConsumerStep(w, _) => AtWorker(w)
    case SubmitChild(w, _) => AtWorker(w)
    case ProducerStep(w, _) => AtWorker(w)
    case FinishTask(w) => AtWorker(w)
    case LoadShutdown(w) => AtWorker(w)
    case _ => Main
  }

  predicate NoneBy(me: Agent, steps: seq<RsStep>) {
    forall k | 0 <= k < |steps| :: By(steps[k]) != me
  }

  /** The run has gone on, by steps of others only. */
  predicate OthersOnly(me: Agent, run: seq<RsStep>, run': seq<RsStep>) {
    run <= run' && NoneBy(me, run'[|run|..])
  }

  // ---------------------------------------------------------------- counting accesses

  /** How many accesses `me` has made. */
  function Accesses(me: Agent, run: seq<RsStep>): nat {
    if run == [] then 0 else Accesses(me, run[..|run| - 1]) + if By(Last(run)) == me then 1 else 0
  }

  lemma {:induction false} AccessesAdd(me: Agent, run: seq<RsStep>, more: seq<RsStep>)
    ensures Accesses(me, run + more) == Accesses(me, run) + Accesses(me, more)
    decreases |more|
  {
    if more == [] {
      assert run + more == run;
    } else {
      var front := more[..|more| - 1];
      AccessesAdd(me, run, front);
      assert (run + more)[..|run + more| - 1] == run + front;
    }
  }

  lemma {:induction false} NoAccesses(me: Agent, steps: seq<RsStep>)
    requires NoneBy(me, steps)
    ensures Accesses(me, steps) == 0
    decreases |steps|
  {
    if steps != [] {
      NoAccesses(me, steps[..|steps| - 1]);
    }
  }

  lemma AccessesAfterOthers(me: Agent, run: seq<RsStep>, run': seq<RsStep>)
    requires OthersOnly(me, run, run')
    ensures Accesses(me, run') == Accesses(me, run)
  {
    AccessesAdd(me, run, run'[|run|..]);
    NoAccesses(me, run'[|run|..]);
    assert run' == run + run'[|run|..];
  }

  lemma OneAccess(me: Agent, run: seq<RsStep>, step: RsStep)
    requires By(step) == me
    ensures Accesses(me, run + [step]) == Accesses(me, run) + 1
  {
    assert (run + [step])[..|run|] == run;
  }

  lemma AccessesGrow(me: Agent, run: seq<RsStep>, run': seq<RsStep>)
    requires run <= run'
    ensures Accesses(me, run) <= Accesses(me, run')
  {
    AccessesAdd(me, run, run'[|run|..]);
    assert run' == run + run'[|run|..];
  }

  /** How often a step has been made. */
  function Times(run: seq<RsStep>, step: RsStep): nat {
    multiset(run)[step]
  }

  lemma TimesAfterOthers(me: Agent, run: seq<RsStep>, run': seq<RsStep>, step: RsStep)
    requires OthersOnly(me, run, run') && By(step) == me
    ensures Times(run', step) == Times(run, step)
  {
    var more := run'[|run|..];
    assert run' == run + more;
    assert step !in more;
    assert multiset(more)[step] == 0;
  }

  /** From some step at or after `since` on, `run` has read a positive `pending_` just so many times. */
  ghost predicate PolledInVain(run: seq<RsStep>, since: nat, polls: nat) {
    exists k :: since <= k <= |run| && Times(run, SeeTasksPending) == Times(run[..k], SeeTasksPending) + polls
  }

  // ---------------------------------------------------------------- zero stays zero

  lemma {:induction false} RunFrom(s: Rs, first: seq<RsStep>, m: Rs, run: seq<RsStep>, s': Rs)
    requires Reaches(s, first, m) && Reaches(s, run, s') && first <= run
    ensures Reaches(m, run[|first|..], s')
    decreases |first|
  {
    if first != [] {
      TailOfTail(first, run);
      RunFrom(Do(s, first[0]), first[1..], m, run[1..], s');
    } else {
      assert run[0..] == run;
    }
  }

  lemma ZeroStaysZero(s: Rs, step: RsStep)
    requires Sizes(s) && TasksOk(s) && Launched(s) && Quiescent(s) && s.pending == 0 && Enabled(s, step)
    requires step != Rest
    ensures Do(s, step).pending == 0 && Launched(Do(s, step))
  {
    if step.SubmitChild? || step.FinishTask? {
      InHandIsRunning(s, step.w);
      assert false;
    } else {
      PendingStays(s, step);
    }
  }

  lemma PendingStays(s: Rs, step: RsStep)
    requires Enabled(s, step) && Launched(s) && !step.SubmitChild? && !step.FinishTask? && !step.Rest?
    ensures Do(s, step).pending == s.pending && Launched(Do(s, step))
  {
  }

  lemma {:induction false} QuiescenceIsStable(s: Rs, steps: seq<RsStep>, s': Rs)
    requires Inv(s) && Launched(s) && s.pending == 0 && Reaches(s, steps, s') && Rest !in steps
    ensures s'.pending == 0
    decreases |steps|
  {
    if steps != [] {
      PendingZeroMeansQuiescent(s);
      ZeroStaysZero(s, steps[0]);
      StepKeepsInv(s, steps[0]);
      assert Rest !in steps[1..];
      QuiescenceIsStable(Do(s, steps[0]), steps[1..], s');
    }
  }

  /** While `run` waits, nobody else can make `pending_` positive once it is zero. */
  lemma ZeroStaysAmongOthers(size: nat, n: nat, run: seq<RsStep>, m: Rs, run': seq<RsStep>, s': Rs)
    requires size >= 2 && Reaches(Init(size, n), run, m) && Reaches(Init(size, n), run', s')
    requires OthersOnly(Main, run, run') && Launched(m) && m.pending == 0
    ensures s'.pending == 0
  {
    RunFrom(Init(size, n), run, m, run', s');
    assert By(Rest) == Main;
    ReachableHasInv(size, n, run, m);
    QuiescenceIsStable(m, run'[|run|..], s');
  }

  // ---------------------------------------------------------------- a round of the worker loop

  /** Since step `since` a dequeue of `w` has taken the first task of the queue, and that has been run and counted. */
  ghost predicate RanFirst(size: nat, n: nat, run: seq<RsStep>, since: nat, w: nat, b: Bag) {
    exists t: Task :: t in b.done && TookFirstTask(size, n, run, since, w, Some(t))
  }
}
