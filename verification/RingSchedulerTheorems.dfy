/** What holds of the ring scheduler in every run, for every ring size and worker count. */
module RingSchedulerTheorems {
  import opened Wrappers
  import opened BagScheduler
  import opened BagTheorems
  import opened RingScheduler
  import opened RingSchedulerInvariant
  import opened RingSchedulerSteps

  function Labels(s: Rs, steps: seq<RsStep>): seq<Label>
    decreases |steps|
  {
    if steps == [] || !Enabled(s, steps[0]) then []
    else [LabelOf(s, steps[0])] + Labels(Do(s, steps[0]), steps[1..])
  }

  /** Any run keeps the invariant, and its labels are a run of the bag. */
  lemma {:induction false} RunRefinesBagFrom(s: Rs, steps: seq<RsStep>, s': Rs)
    requires Inv(s) && Reaches(s, steps, s')
    ensures Inv(s')
    ensures BagRun(s.bag, Labels(s, steps), s'.bag)
    decreases |steps|
  {
    if steps != [] {
      StepKeepsInv(s, steps[0]);
      StepAllowed(s, steps[0]);
      RunRefinesBagFrom(Do(s, steps[0]), steps[1..], s');
      assert Labels(s, steps)[1..] == Labels(Do(s, steps[0]), steps[1..]);
    }
  }

  lemma ReachableHasInv(size: nat, n: nat, steps: seq<RsStep>, s: Rs)
    requires size >= 2 && Reaches(Init(size, n), steps, s)
    ensures Inv(s) && BagRun(EMPTY_BAG, Labels(Init(size, n), steps), s.bag)
  {
    InitHasInv(size, n);
    RunRefinesBagFrom(Init(size, n), steps, s);
  }

  /** Some run with a ring of `size` slots and `n` workers leads here. */
  ghost predicate Reachable(size: nat, n: nat, s: Rs) {
    size >= 2 && exists steps :: Reaches(Init(size, n), steps, s)
  }

  /** A run may go on by any step that is enabled. */
  lemma {:induction false} RunGoesOn(s: Rs, steps: seq<RsStep>, m: Rs, step: RsStep)
    requires Reaches(s, steps, m) && Enabled(m, step)
    ensures Reaches(s, steps + [step], Do(m, step))
    decreases |steps|
  {
    if steps == [] {
      assert [step][1..] == [];
      assert steps + [step] == [step];
    } else {
      RunGoesOn(Do(s, steps[0]), steps[1..], m, step);
      assert (steps + [step])[1..] == steps[1..] + [step];
    }
  }

  lemma ReachableGoesOn(size: nat, n: nat, s: Rs, step: RsStep)
    requires Reachable(size, n, s) && Enabled(s, step)
    ensures Reachable(size, n, Do(s, step)) && BagNext(s.bag, LabelOf(s, step), Do(s, step).bag)
  {
    var steps :| Reaches(Init(size, n), steps, s);
    RunGoesOn(Init(size, n), steps, s, step);
    ReachableHasInv(size, n, steps, s);
    StepAllowed(s, step);
  }

  /** The scheduler refines the bag: whatever it does in any run, the bag allows. */
  lemma RunRefinesBag(size: nat, n: nat, steps: seq<RsStep>, s: Rs)
    requires size >= 2 && Reaches(Init(size, n), steps, s)
    ensures BagRun(EMPTY_BAG, Labels(Init(size, n), steps), s.bag)
  {
    ReachableHasInv(size, n, steps, s);
  }

  /** When `run` returns, every task submitted has run exactly once and the ring holds no task. */
  lemma RunReturnsWhenAllIsDone(size: nat, n: nat, steps: seq<RsStep>, s: Rs, t: Task)
    requires size >= 2 && Reaches(Init(size, n), steps, s) && s.main.Returned?
    ensures Starts(Labels(Init(size, n), steps), t) == Finishes(Labels(Init(size, n), steps), t)
         == Submissions(Labels(Init(size, n), steps), t) <= 1
    ensures Unclaimed(s.ring) == [] && forall c | 0 <= c < |s.ring.consumers| :: s.ring.consumers[c].CIdle?
  {
    ReachableHasInv(size, n, steps, s);
    ReturnedMeansAllRanOnce(Labels(Init(size, n), steps), s.bag, t);
    if Unclaimed(s.ring) != [] {
      assert Unclaimed(s.ring)[0] in multiset(Unclaimed(s.ring));
      OwedIsQueued(s, Unclaimed(s.ring)[0]);
    }
    forall c | 0 <= c < |s.ring.consumers|
      ensures s.ring.consumers[c].CIdle?
    {
      assert CallOk(s, c);
    }
  }

  /** Nobody leaves while `pending_` is positive. */
  lemma NobodyLeavesEarly(size: nat, n: nat, steps: seq<RsStep>, s: Rs)
    requires size >= 2 && Reaches(Init(size, n), steps, s) && s.pending > 0
    ensures forall w | 0 <= w < |s.workers| :: !s.workers[w].Exited?
    ensures !s.main.Stopping? && !s.main.Joining? && !s.main.Returned?
    ensures Launched(s) ==> !s.shutdown
  {
    ReachableHasInv(size, n, steps, s);
  }
}
