/** Runs of the ring as one agent lives through them: its own accesses, with any steps of others in between. */
module RingRuns {
  import opened Wrappers
  import opened RingModel
  import opened RingInvariant
  import opened RingSteps
  import opened RingTheorems

  datatype Agent = Producer(i: nat) | Consumer(c: nat)

  function By(step: RingStep): Agent {
    match step
    case Reserve(i, _) => Producer(i)
    case Await(i) => Producer(i)
    case StorePayload(i) => Producer(i)
    case Publish(i) => Producer(i)
    case StartDequeue(c) => Consumer(c)
    case LoadTail(c) => Consumer(c)
    case LoadSequence(c) => Consumer(c)
    case CasTail(c, _) => Consumer(c)
    case Exchange(c) => Consumer(c)
    case Release(c) => Consumer(c)
  }

  predicate NoneBy(me: Agent, steps: seq<RingStep>) {
    forall k | 0 <= k < |steps| :: By(steps[k]) != me
  }

  /** The run has gone on, by steps of others only. */
  predicate OthersOnly(me: Agent, run: seq<RingStep>, run': seq<RingStep>) {
    run <= run' && NoneBy(me, run'[|run|..])
  }

  /** The run has gone on by one step of `me` and then by steps of others only. */
  predicate Accessed(me: Agent, run: seq<RingStep>, step: RingStep, run': seq<RingStep>) {
    By(step) == me && OthersOnly(me, run + [step], run')
  }

  lemma NotMine(me: Agent, run: seq<RingStep>, run': seq<RingStep>, k: int)
    requires OthersOnly(me, run, run') && |run| <= k < |run'|
    ensures By(run'[k]) != me
  {
    assert run'[k] == run'[|run|..][k - |run|];
  }

  /** How often a step has been made. */
  function Times(run: seq<RingStep>, step: RingStep): nat {
    multiset(run)[step]
  }

  lemma TimesAfterOthers(me: Agent, run: seq<RingStep>, run': seq<RingStep>, step: RingStep)
    requires OthersOnly(me, run, run') && By(step) == me
    ensures Times(run', step) == Times(run, step)
  {
    var more := run'[|run|..];
    assert run' == run + more;
    assert step !in more;
    assert multiset(more)[step] == 0;
  }

  lemma TimesAfterAccess(me: Agent, run: seq<RingStep>, made: RingStep, run': seq<RingStep>, step: RingStep)
    requires Accessed(me, run, made, run') && By(step) == me
    ensures Times(run', step) == Times(run, step) + if made == step then 1 else 0
  {
    TimesAfterOthers(me, run + [made], run', step);
  }

  // ---------------------------------------------------------------- states along a run

  function StateAfter(r: Ring, steps: seq<RingStep>): Ring
    decreases |steps|
  {
    if steps == [] || !Enabled(r, steps[0]) then r else StateAfter(Do(r, steps[0]), steps[1..])
  }

  lemma {:induction false} ReachesStateAfter(r: Ring, steps: seq<RingStep>, r': Ring)
    requires Reaches(r, steps, r')
    ensures StateAfter(r, steps) == r'
    decreases |steps|
  {
    if steps != [] {
      ReachesStateAfter(Do(r, steps[0]), steps[1..], r');
    }
  }

  /** What follows a prefix of a run is a run from where the prefix leads. */
  lemma {:induction false} RunFrom(r: Ring, first: seq<RingStep>, m: Ring, run: seq<RingStep>, r': Ring)
    requires Reaches(r, first, m) && Reaches(r, run, r') && first <= run
    ensures Reaches(m, run[|first|..], r')
    decreases |first|
  {
    if first != [] {
      TailOfTail(first, run);
      RunFrom(Do(r, first[0]), first[1..], m, run[1..], r');
    } else {
      assert run[0..] == run;
    }
  }

  // ---------------------------------------------------------------- a slot that is ready

  /** Producer `i` waits for a slot that is ready for its ticket. */
  predicate SlotIsReady(r: Ring, i: nat) {
    && r.slots != [] && i < |r.producers| && r.producers[i].Reserved?
    && r.slots[Home(r, r.producers[i].pos)].sequence == r.producers[i].pos
  }

  /** A slot that is ready for a ticket stays ready until its producer makes use of it. */
  lemma ReadySlotStays(r: Ring, step: RingStep, i: nat)
    requires Inv(r) && Enabled(r, step) && By(step) != Producer(i) && SlotIsReady(r, i)
    ensures SlotIsReady(Do(r, step), i)
  {
    AwaitedSlotIsEmpty(r, i);
    if step.Publish? {
      assert ProducerOk(r, r.producers[step.i]);
    } else if step.Release? {
      assert ConsumerOk(r, r.consumers[step.c]);
    }
  }

  lemma {:induction false} ReadySlotStaysLong(r: Ring, steps: seq<RingStep>, r': Ring, i: nat)
    requires Inv(r) && Reaches(r, steps, r') && NoneBy(Producer(i), steps) && SlotIsReady(r, i)
    ensures SlotIsReady(r', i)
    decreases |steps|
  {
    if steps != [] {
      ReadySlotStays(r, steps[0], i);
      StepKeepsInv(r, steps[0]);
      ReadySlotStaysLong(Do(r, steps[0]), steps[1..], r', i);
    }
  }

  // ---------------------------------------------------------------- a dequeue that goes on searching

  lemma OthersLeaveSearch(r: Ring, step: RingStep, c: nat)
    requires Enabled(r, step) && By(step) != Consumer(c) && Searches(r, c)
    ensures Searches(Do(r, step), c) && !IsRetry(r, step, c)
  {
  }

  lemma {:induction false} SearchGoesOnAmongOthers(r: Ring, steps: seq<RingStep>, r': Ring, c: nat)
    requires Reaches(r, steps, r') && NoneBy(Consumer(c), steps) && Searches(r, c)
    ensures SearchesThroughout(r, steps, c) && Retries(r, steps, c) == 0
    decreases |steps|
  {
    if steps != [] {
      OthersLeaveSearch(r, steps[0], c);
      SearchGoesOnAmongOthers(Do(r, steps[0]), steps[1..], r', c);
    }
  }

  /** One access of the searching consumer, and what others do after it. */
  lemma {:induction false} SearchGoesOn(r: Ring, steps: seq<RingStep>, m: Ring, step: RingStep, more: seq<RingStep>,
                                        r': Ring, c: nat)
    requires Reaches(r, steps, m) && Enabled(m, step) && Reaches(Do(m, step), more, r')
    requires SearchesThroughout(r, steps, c) && Searches(Do(m, step), c) && NoneBy(Consumer(c), more)
    ensures SearchesThroughout(r, steps + [step] + more, c)
    ensures Retries(r, steps + [step] + more, c) == Retries(r, steps, c) + if IsRetry(m, step, c) then 1 else 0
    decreases |steps|
  {
    var all := steps + [step] + more;
    if steps == [] {
      assert all[0] == step && all[1..] == more;
      SearchGoesOnAmongOthers(Do(m, step), more, r', c);
    } else {
      assert all[0] == steps[0] && all[1..] == steps[1..] + [step] + more;
      SearchGoesOn(Do(r, steps[0]), steps[1..], m, step, more, r', c);
    }
  }

  // ---------------------------------------------------------------- seen from the start of the ring

  /** How a ring starts. */
  datatype Start = Start(size: nat, producers: nat, consumers: nat)

  /** The ring after a run from its start. */
  function StateOf(start: Start, run: seq<RingStep>): Ring {
    StateAfter(Init(start.size, start.producers, start.consumers), run)
  }

  ghost predicate IsRun(start: Start, run: seq<RingStep>, r: Ring) {
    start.size >= 2 && Reaches(Init(start.size, start.producers, start.consumers), run, r)
  }

  lemma RunMeans(start: Start, run: seq<RingStep>, r: Ring)
    requires IsRun(start, run, r)
    ensures Inv(r) && StateOf(start, run) == r && Reachable(r)
  {
    InitHasInv(start.size, start.producers, start.consumers);
    RunKeepsInv(Init(start.size, start.producers, start.consumers), run, r);
    ReachesStateAfter(Init(start.size, start.producers, start.consumers), run, r);
  }

  lemma ReadyAmongOthers(start: Start, run: seq<RingStep>, m: Ring, run': seq<RingStep>, r': Ring, i: nat)
    requires IsRun(start, run, m) && IsRun(start, run', r') && OthersOnly(Producer(i), run, run') && SlotIsReady(m, i)
    ensures SlotIsReady(r', i)
  {
    RunMeans(start, run, m);
    RunFrom(Init(start.size, start.producers, start.consumers), run, m, run', r');
    ReadySlotStaysLong(m, run'[|run|..], r', i);
  }

  // ---------------------------------------------------------------- looks at a slot that is held back

  /** The slot of ticket `pos` still serves the ticket one generation before it. */
  predicate HeldBack(r: Ring, pos: nat) {
    |r.turn| == |r.slots| > 0 && pos >= |r.slots| && !Released(r, pos - |r.slots|)
  }

  /** Every look of producer `i` since step `since` found its slot held back. */
  ghost predicate LookedInVain(start: Start, run: seq<RingStep>, since: nat, i: nat, pos: nat) {
    forall k | since <= k < |run| && run[k] == Await(i) :: HeldBack(StateOf(start, run[..k]), pos)
  }

  lemma NoLookYet(start: Start, run: seq<RingStep>, step: RingStep, run': seq<RingStep>, i: nat, pos: nat)
    requires Accessed(Producer(i), run, step, run') && !step.Await?
    ensures LookedInVain(start, run', |run|, i, pos)
  {
    forall k | |run| < k < |run'|
      ensures run'[k] != Await(i)
    {
      NotMine(Producer(i), run + [step], run', k);
    }
  }

  lemma OneMoreVainLook(start: Start, run: seq<RingStep>, m: Ring, run': seq<RingStep>, since: nat, i: nat, pos: nat)
    requires IsRun(start, run, m) && LookedInVain(start, run, since, i, pos)
    requires Accessed(Producer(i), run, Await(i), run')
    requires i < |m.producers| && m.producers[i].Reserved? && m.producers[i].pos == pos && !SlotIsReady(m, i)
    ensures LookedInVain(start, run', since, i, pos)
  {
    RunMeans(start, run, m);
    WaitsForPreviousGeneration(m, i);
    forall k | since <= k < |run'| && run'[k] == Await(i)
      ensures HeldBack(StateOf(start, run'[..k]), pos)
    {
      if k > |run| {
        NotMine(Producer(i), run + [Await(i)], run', k);
      } else if k < |run| {
        assert run'[..k] == run[..k] && run'[k] == run[k];
      } else {
        assert run'[..k] == run;
      }
    }
  }

  // ---------------------------------------------------------------- the search since some step

  /** Since step `since` consumer `c` has been searching and has had to look again `again` times. */
  ghost predicate InSearch(start: Start, run: seq<RingStep>, since: nat, c: nat, again: nat) {
    && since <= |run| && SearchesThroughout(StateOf(start, run[..since]), run[since..], c)
    && Retries(StateOf(start, run[..since]), run[since..], c) + Times(run[since..], CasTail(c, true)) == again
  }

  lemma SearchBegins(start: Start, run: seq<RingStep>, m: Ring, run': seq<RingStep>, r': Ring, c: nat)
    requires IsRun(start, run, m) && IsRun(start, run', r') && Searches(m, c) && OthersOnly(Consumer(c), run, run')
    ensures InSearch(start, run', |run|, c, 0)
  {
    RunMeans(start, run, m);
    RunFrom(Init(start.size, start.producers, start.consumers), run, m, run', r');
    SearchGoesOnAmongOthers(m, run'[|run|..], r', c);
    assert run'[..|run|] == run;
    assert CasTail(c, true) !in run'[|run|..];
  }

  /** One more access of the search. */
  lemma SearchContinues(start: Start, run: seq<RingStep>, m: Ring, step: RingStep, run': seq<RingStep>, r': Ring,
                        since: nat, c: nat, again: nat)
    requires IsRun(start, run, m) && IsRun(start, run', r') && Accessed(Consumer(c), run, step, run')
    requires InSearch(start, run, since, c, again) && Enabled(m, step) && Searches(Do(m, step), c)
    ensures
      InSearch(start, run', since, c, again + if IsRetry(m, step, c) || step == CasTail(c, true) then 1 else 0)
  {
    var init := Init(start.size, start.producers, start.consumers);
    var begun, more := StateOf(start, run[..since]), run'[|run| + 1..];
    PrefixReaches(init, run, since, m);
    RunFrom(init, run[..since], begun, run, m);
    AccessThenOthers(init, run, m, step, run', r');
    SearchGoesOn(begun, run[since..], m, step, more, r', c);
    Pieces(run, step, run', since);
    TimesOfPieces(c, run[since..], step, more);
  }

  lemma AccessThenOthers(init: Ring, run: seq<RingStep>, m: Ring, step: RingStep, run': seq<RingStep>, r': Ring)
    requires Reaches(init, run, m) && Reaches(init, run', r') && run + [step] <= run' && Enabled(m, step)
    ensures Reaches(Do(m, step), run'[|run| + 1..], r')
  {
    RunFrom(init, run, m, run', r');
    assert run'[|run|..][0] == step && run'[|run|..][1..] == run'[|run| + 1..];
  }

  lemma Pieces(run: seq<RingStep>, step: RingStep, run': seq<RingStep>, since: nat)
    requires run + [step] <= run' && since <= |run|
    ensures run'[..since] == run[..since] && run'[since..] == run[since..] + [step] + run'[|run| + 1..]
  {
  }

  lemma TimesOfPieces(c: nat, steps: seq<RingStep>, step: RingStep, more: seq<RingStep>)
    requires NoneBy(Consumer(c), more)
    ensures
      Times(steps + [step] + more, CasTail(c, true))
      == Times(steps, CasTail(c, true)) + if step == CasTail(c, true) then 1 else 0
  {
    assert CasTail(c, true) !in more;
    assert multiset(more)[CasTail(c, true)] == 0;
  }

  lemma {:induction false} PrefixReaches(r: Ring, run: seq<RingStep>, k: nat, r': Ring)
    requires Reaches(r, run, r') && k <= |run|
    ensures Reaches(r, run[..k], StateAfter(r, run[..k]))
    decreases k
  {
    if k > 0 {
      assert run[..k][1..] == run[1..][..k - 1];
      PrefixReaches(Do(r, run[0]), run[1..], k - 1, r');
    }
  }

  /** A search is made to look again only by claims of others and by CASes that fail without cause. */
  lemma SearchIsPaidFor(start: Start, run: seq<RingStep>, r: Ring, since: nat, c: nat, again: nat)
    requires IsRun(start, run, r) && InSearch(start, run, since, c, again)
    requires StateOf(start, run[..since]).consumers[c].Reload?
    ensures
      again <= ClaimsOfOthers(StateOf(start, run[..since]), run[since..], c) + Times(run[since..], CasTail(c, true))
  {
    var init := Init(start.size, start.producers, start.consumers);
    var begun := StateOf(start, run[..since]);
    PrefixReaches(init, run, since, r);
    InitHasInv(start.size, start.producers, start.consumers);
    RunKeepsInv(init, run[..since], begun);
    RetriesFrom(begun, run[since..], c);
  }
}
