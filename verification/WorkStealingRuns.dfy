/** Runs of the work-stealing scheduler as one thread lives through them: what it has done since some step. */
module WorkStealingRuns {
  import opened Wrappers
  import opened BagScheduler
  import opened WorkStealingCalls
  import opened WorkStealingModel
  import opened WorkStealingInvariant
  import opened WorkStealingTheorems
  import D = DequeModel
  import R = DequeRefinement

  datatype Agent = Main | AtWorker(w: nat)

  /** Who makes a step; draining a store buffer is nobody's. */
  function By(step: WsStep): Option<Agent> {
    match step
    case DrainBuffer(_) => None
    case OwnerStep(w, _) => Some(AtWorker(w))
    case SubmitChild(w, _) => Some(AtWorker(w))
    case FinishTask(w) => Some(AtWorker(w))
    case LoadPending(w) => Some(AtWorker(w))
    case LoadShutdown(w, _) => Some(AtWorker(w))
    case StartSteal(w) => Some(AtWorker(w))
    case ThiefStep(w, _) => Some(AtWorker(w))
    case GiveUpSweep(w) => Some(AtWorker(w))
    case _ => Some(Main)
  }

  predicate NoneBy(me: Agent, steps: seq<WsStep>) {
    forall k | 0 <= k < |steps| :: By(steps[k]) != Some(me)
  }

  /** The run has gone on, by steps of others only. */
  predicate OthersOnly(me: Agent, run: seq<WsStep>, run': seq<WsStep>) {
    run <= run' && NoneBy(me, run'[|run|..])
  }

  /** How often a step has been made. */
  function Times(run: seq<WsStep>, step: WsStep): nat {
    multiset(run)[step]
  }

  lemma TimesAfterOthers(me: Agent, run: seq<WsStep>, run': seq<WsStep>, step: WsStep)
    requires OthersOnly(me, run, run') && By(step) == Some(me)
    ensures Times(run', step) == Times(run, step)
  {
    var more := run'[|run|..];
    assert run' == run + more;
    assert step !in more;
    assert multiset(more)[step] == 0;
  }

  /** Another occurrence of a step, in what has been added to a run. */
  lemma OnceMore(run: seq<WsStep>, run': seq<WsStep>, since: nat, step: WsStep)
    requires since <= |run| && run + [step] <= run'
    ensures Times(run'[since..], step) >= Times(run[since..], step) + 1
  {
    var more := run'[|run| + 1..];
    assert run'[since..] == run[since..] + [step] + more;
    assert multiset(run'[since..]) == multiset(run[since..]) + multiset{step} + multiset(more);
  }

  // ---------------------------------------------------------------- zero stays zero

  /** What follows a prefix of a run is a run from where the prefix leads. */
  lemma {:induction false} RunFrom(s: Ws, first: seq<WsStep>, m: Ws, run: seq<WsStep>, s': Ws)
    requires Reaches(s, first, m) && Reaches(s, run, s') && first <= run
    ensures Reaches(m, run[|first|..], s')
    decreases |first|
  {
    if first != [] {
      TailOfTail(first, run);
      RunFrom(Do(s, first[0]), first[1..], m, run[1..], s');
    } else {
      assert run[0..] == run;
    }
  }

  /** While `run` waits, nobody else can make `pending_` positive once it is zero. */
  lemma ZeroStaysAmongOthers(n: nat, run: seq<WsStep>, m: Ws, run': seq<WsStep>, s': Ws)
    requires n >= 1 && Reaches(Init(n), run, m) && Reaches(Init(n), run', s') && OthersOnly(Main, run, run')
    requires Launched(m) && m.pending == 0
    ensures s'.pending == 0
  {
    RunFrom(Init(n), run, m, run', s');
    var more := run'[|run|..];
    assert By(ClearWorkers) == Some(Main);
    QuiescenceIsStable(n, run, m, more, s');
  }

  // ---------------------------------------------------------------- what a sweep has tried

  predicate Tries(s: Ws, step: WsStep, w: nat, v: nat) {
    Enabled(s, step) && step == StartSteal(w) && VictimOf(s, w) == v
  }

  /** Since step `since` worker `w` has begun a steal from worker `v`. */
  ghost predicate TriedVictim(n: nat, run: seq<WsStep>, since: nat, w: nat, v: nat) {
    exists k :: since <= k < |run| && Tries(StateAfter(Init(n), run[..k]), run[k], w, v)
  }

  lemma TriesNow(n: nat, run: seq<WsStep>, s: Ws, since: nat, w: nat)
    requires Reaches(Init(n), run, s) && since <= |run| && Enabled(s, StartSteal(w))
    ensures TriedVictim(n, run + [StartSteal(w)], since, w, VictimOf(s, w))
  {
    ReachesStateAfter(Init(n), run, s);
    var run' := run + [StartSteal(w)];
    assert run'[..|run|] == run && run'[|run|] == StartSteal(w);
  }

  lemma TriedStays(n: nat, run: seq<WsStep>, run': seq<WsStep>, since: nat, w: nat, v: nat)
    requires TriedVictim(n, run, since, w, v) && run <= run'
    ensures TriedVictim(n, run', since, w, v)
  {
    var k :| since <= k < |run| && Tries(StateAfter(Init(n), run[..k]), run[k], w, v);
    assert run'[..k] == run[..k] && run'[k] == run[k];
  }

  /** Since step `since` worker `w` has begun a steal from each of these. */
  ghost predicate TriedAll(n: nat, run: seq<WsStep>, since: nat, w: nat, victims: seq<nat>) {
    forall i | 0 <= i < |victims| :: TriedVictim(n, run, since, w, victims[i])
  }

  lemma TriedAllStays(n: nat, run: seq<WsStep>, run': seq<WsStep>, since: nat, w: nat, victims: seq<nat>)
    requires TriedAll(n, run, since, w, victims) && run <= run'
    ensures TriedAll(n, run', since, w, victims)
  {
    forall i | 0 <= i < |victims|
      ensures TriedVictim(n, run', since, w, victims[i])
    {
      TriedStays(n, run, run', since, w, victims[i]);
    }
  }

  lemma TriedOneMore(n: nat, run: seq<WsStep>, run': seq<WsStep>, since: nat, w: nat, victims: seq<nat>, v: nat)
    requires TriedAll(n, run, since, w, victims) && run <= run' && since <= |run|
    requires TriedVictim(n, run', |run|, w, v)
    ensures TriedAll(n, run', since, w, victims + [v])
  {
    TriedAllStays(n, run, run', since, w, victims);
    var k :| |run| <= k < |run'| && Tries(StateAfter(Init(n), run'[..k]), run'[k], w, v);
    assert TriedVictim(n, run', since, w, v);
  }

  // ---------------------------------------------------------------- a task counted as done

  /** In state `s` the step counts task `t` of worker `w` as done, and `last` tells whether nothing is left then. */
  ghost predicate CountsTask(s: Ws, step: WsStep, w: nat, t: Task, last: bool) {
    && Enabled(s, step) && step == FinishTask(w) && s.workers[w].t == t && last == Quiescent(Do(s, step))
  }

  /** Since step `since` that has happened. */
  ghost predicate Counted(n: nat, run: seq<WsStep>, since: nat, w: nat, t: Task, last: bool) {
    exists k :: since <= k < |run| && CountsTask(StateAfter(Init(n), run[..k]), run[k], w, t, last)
  }

  lemma CountsNow(n: nat, run: seq<WsStep>, s: Ws, since: nat, w: nat, t: Task, last: bool)
    requires Reaches(Init(n), run, s) && since <= |run| && CountsTask(s, FinishTask(w), w, t, last)
    ensures Counted(n, run + [FinishTask(w)], since, w, t, last)
  {
    ReachesStateAfter(Init(n), run, s);
    var run' := run + [FinishTask(w)];
    assert run'[..|run|] == run && run'[|run|] == FinishTask(w);
  }

  lemma CountedStays(n: nat, run: seq<WsStep>, run': seq<WsStep>, since: nat, later: nat, w: nat, t: Task, last: bool)
    requires Counted(n, run, later, w, t, last) && run <= run' && since <= later
    ensures Counted(n, run', since, w, t, last)
  {
    var k :| later <= k < |run| && CountsTask(StateAfter(Init(n), run[..k]), run[k], w, t, last);
    assert run'[..k] == run[..k] && run'[k] == run[k];
  }

  // ---------------------------------------------------------------- a round of the worker loop

  /** The round has popped a task, run it and counted it. */
  ghost predicate RanPopped(n: nat, run: seq<WsStep>, since: nat, w: nat, b: Bag, leave: bool) {
    exists t: Task :: t in b.done && Happened(n, run, since, w, PopEvent(Some(t)))
      && Counted(n, run, since, w, t, leave)
  }

  /** The round has stolen a task from another worker, run it and counted it. */
  ghost predicate RanStolen(n: nat, run: seq<WsStep>, since: nat, w: nat, b: Bag, leave: bool) {
    exists v: nat, t: Task :: v != w && t in b.done && Happened(n, run, since, v, R.StoleFirst(w, Some(t)))
      && Counted(n, run, since, w, t, leave)
  }

  /** The round has tried every victim of a sweep that starts at another worker ... */
  ghost predicate SweptFrom(n: nat, run: seq<WsStep>, since: nat, w: nat, start: nat) {
    start < n && start != w && TriedAll(n, run, since, w, Victims(w, n, start, n - 1))
  }

  /** ... whichever that was. */
  ghost predicate SweptInVain(n: nat, run: seq<WsStep>, since: nat, w: nat) {
    exists start: nat :: SweptFrom(n, run, since, w, start)
  }

  /**
   * What a round comes to: a popped task run; or, with nothing to pop, the worker leaves, or runs a stolen task, or
   * has tried every victim (there are none if it is alone).
   */
  ghost predicate RoundDid(n: nat, run: seq<WsStep>, since: nat, w: nat, b: Bag, leave: bool)
    requires n > 0
  {
    || RanPopped(n, run, since, w, b, leave)
    || (Happened(n, run, since, w, PopEvent(None))
        && (leave || n == 1 || RanStolen(n, run, since, w, b, leave) || SweptInVain(n, run, since, w)))
  }

  // ---------------------------------------------------------------- the launch

  /** Since step `since` the workers were launched, with just these tasks in deque 0, in order, all stores drained. */
  ghost predicate LaunchedWith(n: nat, run: seq<WsStep>, since: nat, tasks: seq<Task>) {
    exists k :: since <= k < |run| && run[k] == LaunchWorkers && ReadyToLaunch(StateAfter(Init(n), run[..k]), tasks)
  }

  predicate ReadyToLaunch(s: Ws, tasks: seq<Task>) {
    s.deques != [] && D.Content(s.deques[0]) == tasks && forall v | 0 <= v < |s.deques| :: s.deques[v].buf == []
  }

  lemma LaunchesNow(n: nat, run: seq<WsStep>, s: Ws, since: nat, tasks: seq<Task>, run': seq<WsStep>)
    requires Reaches(Init(n), run, s) && since <= |run| && ReadyToLaunch(s, tasks) && run + [LaunchWorkers] <= run'
    ensures LaunchedWith(n, run', since, tasks)
  {
    ReachesStateAfter(Init(n), run, s);
    assert run'[..|run|] == run && run'[|run|] == LaunchWorkers;
  }

  lemma LaunchedWithStays(n: nat, run: seq<WsStep>, run': seq<WsStep>, since: nat, tasks: seq<Task>)
    requires LaunchedWith(n, run, since, tasks) && run <= run'
    ensures LaunchedWith(n, run', since, tasks)
  {
    var k :|
      since <= k < |run| && run[k] == LaunchWorkers && ReadyToLaunch(StateAfter(Init(n), run[..k]), tasks);
    assert run'[..k] == run[..k] && run'[k] == run[k];
  }

  /** Since step `since` each of the tasks has been pushed on deque 0. */
  ghost predicate PushedAll(n: nat, run: seq<WsStep>, since: nat, tasks: seq<Task>) {
    forall i | 0 <= i < |tasks| :: Happened(n, run, since, 0, R.Pushed(tasks[i]))
  }

  lemma PushedAllStays(n: nat, run: seq<WsStep>, run': seq<WsStep>, since: nat, tasks: seq<Task>)
    requires PushedAll(n, run, since, tasks) && run <= run'
    ensures PushedAll(n, run', since, tasks)
  {
    forall i | 0 <= i < |tasks|
      ensures Happened(n, run', since, 0, R.Pushed(tasks[i]))
    {
      HappenedStays(n, run, run', since, 0, R.Pushed(tasks[i]));
    }
  }

  lemma OnePushedMore(n: nat, run: seq<WsStep>, since: nat, tasks: seq<Task>, i: nat)
    requires i < |tasks| && PushedAll(n, run, since, tasks[..i]) && Happened(n, run, since, 0, R.Pushed(tasks[i]))
    ensures PushedAll(n, run, since, tasks[..i + 1])
  {
    var more := tasks[..i + 1];
    forall k | 0 <= k < |more|
      ensures Happened(n, run, since, 0, R.Pushed(more[k]))
    {
      if k < i {
        assert tasks[..i][k] == more[k];
      }
    }
  }

  lemma LaunchedEarlier(n: nat, run: seq<WsStep>, since: nat, later: nat, tasks: seq<Task>)
    requires LaunchedWith(n, run, later, tasks) && since <= later
    ensures LaunchedWith(n, run, since, tasks)
  {
  }

  /** From some step at or after `since` on, `run` has read a positive `pending_` just so many times. */
  ghost predicate PolledInVain(run: seq<WsStep>, since: nat, polls: nat) {
    exists k :: since <= k <= |run| && Times(run, SeeTasksPending) == Times(run[..k], SeeTasksPending) + polls
  }
}
