/** Every step of the work-stealing scheduler keeps its invariant and is allowed by the bag. */
module WorkStealingSteps {
  import opened Wrappers
  import opened BagScheduler
  import opened Multisets
  import opened WorkStealingModel
  import opened WorkStealingInvariant
  import D = DequeModel
  import I = DequeInvariant
  import S = DequeSteps
  import R = DequeRefinement

  // ---------------------------------------------------------------- one deque step

  /** The task a thief returns when the step is a winning CAS. */
  function Stolen(s: D.State, st: D.Step): Option<Task> {
    if st.ThiefCas? && st.i < |s.thieves| && s.thieves[st.i].GotSlot? && s.top == s.thieves[st.i].t
    then s.thieves[st.i].raw else None
  }

  function JustPushed(s: D.State, st: D.Step): multiset<Task> {
    if st.PushStoreBot? && s.owner.PushPublish? then multiset{s.owner.x} else multiset{}
  }

  /** The task a step returns to its caller, popped or stolen. */
  function Result(s: D.State, st: D.Step): Option<Task> {
    if st.ThiefCas? then Stolen(s, st) else PopResult(s, st)
  }

  lemma PopHistories(s: D.State)
    ensures s.owner.PopTake? ==>
      var s' := D.Do(s, D.PopReadTaken);
      s'.pushed == s.pushed && s'.returned == s.returned + Held(PopResult(s, D.PopReadTaken))
    ensures s.owner.PopRestore? ==>
      var s' := D.Do(s, D.PopRestoreBot);
      s'.pushed == s.pushed && s'.returned == s.returned + Held(PopResult(s, D.PopRestoreBot))
  {
  }

  lemma ClaimHistories(s: D.State)
    ensures D.Enabled(s, D.PopLoadTop) ==>
      var s' := D.Do(s, D.PopLoadTop);
      s'.pushed == s.pushed && s'.returned == s.returned
    ensures D.Enabled(s, D.PopRaceCas) ==>
      var s' := D.Do(s, D.PopRaceCas);
      s'.pushed == s.pushed && s'.returned == s.returned
  {
  }

  lemma HistoriesAfter(s: D.State, st: D.Step)
    requires D.Enabled(s, st)
    ensures D.Do(s, st).pushed == s.pushed + JustPushed(s, st)
    ensures D.Do(s, st).returned == s.returned + Held(Result(s, st))
  {
    if S.Quiet(st) {
      S.QuietStep(s, st);
    } else if st.PopReadTaken? || st.PopRestoreBot? {
      PopHistories(s);
    } else if st.PopLoadTop? || st.PopRaceCas? {
      ClaimHistories(s);
    }
  }

  lemma ThievesStay(s: D.State, st: D.Step)
    requires D.Enabled(s, st)
    ensures |D.Do(s, st).thieves| == |s.thieves|
  {
  }

  lemma PushedIsReturnedOrOwed(s: D.State)
    requires I.Inv(s)
    ensures s.pushed == s.returned + Owed(s)
  {
  }

  /** A deque owes what it owed, plus what a step pushes, less what the step returns. */
  lemma OwedAfter(s: D.State, st: D.Step)
    requires I.Inv(s) && D.Enabled(s, st)
    ensures I.Inv(D.Do(s, st)) && |D.Do(s, st).thieves| == |s.thieves|
    ensures Owed(D.Do(s, st)) + Held(Result(s, st)) == Owed(s) + JustPushed(s, st)
  {
    var s' := D.Do(s, st);
    S.StepKeepsInv(s, st);
    PushedIsReturnedOrOwed(s);
    PushedIsReturnedOrOwed(s');
    HistoriesAfter(s, st);
    ThievesStay(s, st);
    Balance(s.pushed, JustPushed(s, st), s.returned, Held(Result(s, st)), Owed(s), Owed(s'));
  }

  lemma Balance(p: multiset<Task>, dp: multiset<Task>, r: multiset<Task>, dr: multiset<Task>, o: multiset<Task>,
                o': multiset<Task>)
    requires p == r + o && p + dp == (r + dr) + o'
    ensures o' + dr == o + dp
  {
    forall x
      ensures (o' + dr)[x] == (o + dp)[x]
    {
      assert (p + dp)[x] == ((r + dr) + o')[x];
    }
  }

  predicate InsidePop(st: D.Step) {
    st.PopLoadArray? || st.PopStoreBot? || st.PopLoadTop? || st.PopReadRaced? || st.PopRaceCas?
  }

  predicate InsidePush(st: D.Step) {
    st.PushLoadTop? || st.PushLoadArray? || st.GrowPut? || st.GrowInstall? || st.PushStoreSlot?
  }

  /** The inner steps of a pop stay in the pop. */
  lemma PopGoesOn(s: D.State, st: D.Step)
    requires D.Enabled(s, st) && InsidePop(st)
    ensures R.OwnerCall(s.owner).Popping?
    ensures R.OwnerCall(D.Do(s, st).owner).Popping? || R.OwnerCall(D.Do(s, st).owner).Popped?
  {
  }

  /** The inner steps of a push stay in the push. */
  lemma PushGoesOn(s: D.State, st: D.Step)
    requires D.Enabled(s, st) && InsidePush(st)
    ensures R.OwnerCall(s.owner).Pushing? && R.OwnerCall(D.Do(s, st).owner) == R.OwnerCall(s.owner)
  {
  }

  /** How an owner step moves the owner's call. */
  lemma OwnerCallAfter(s: D.State, st: D.Step)
    requires D.Enabled(s, st) && IsOwnerStep(st)
    ensures
      var call, call' := R.OwnerCall(s.owner), R.OwnerCall(D.Do(s, st).owner);
      match st
      case PushLoadBot(x) => call.NoCall? && call' == R.Pushing(x)
      case PopLoadBot => call.NoCall? && call' == R.Popping
      case PushStoreBot => call == R.Pushing(s.owner.x) && call'.NoCall?
      case PopReadTaken => call.Popped? && call'.NoCall?
      case PopRestoreBot => call.Popped? && call'.NoCall?
      case _ =>
        || (call.Pushing? && call' == call)
        || ((call.Popping? || call.Popped?) && (call'.Popping? || call'.Popped?))
  {
    if InsidePush(st) {
      PushGoesOn(s, st);
    } else if InsidePop(st) {
      PopGoesOn(s, st);
    }
  }

  lemma IdleIsNoCall(s: D.State)
    ensures R.OwnerCall(s.owner).NoCall? == s.owner.Idle?
  {
  }

  lemma OwnerLeavesThieves(s: D.State, st: D.Step)
    requires D.Enabled(s, st) && IsOwnerStep(st)
    ensures D.Do(s, st).thieves == s.thieves
  {
  }

  lemma ThiefOnlyMoves(s: D.State, st: D.Step)
    requires D.Enabled(s, st) && IsThiefStep(st)
    ensures
      var s' := D.Do(s, st);
      && s'.owner == s.owner && s'.thieves == s.thieves[st.i := s'.thieves[st.i]]
      && Result(s, st) == Stolen(s, st) && JustPushed(s, st) == multiset{}
  {
  }

  /** A steal that wins has a task in hand. */
  lemma StolenIsTask(s: D.State, st: D.Step)
    requires I.Inv(s) && D.Enabled(s, st) && st.ThiefCas? && s.top == s.thieves[st.i].t
    ensures Stolen(s, st).Some?
  {
    S.StealContent(s, st.i);
  }

  /** Draining a store buffer changes nothing anybody is owed. */
  lemma DrainOwesTheSame(s: D.State)
    requires I.Inv(s) && s.buf != []
    ensures I.Inv(D.Do(s, D.Drain)) && Owed(D.Do(s, D.Drain)) == Owed(s)
    ensures D.Do(s, D.Drain).owner == s.owner && D.Do(s, D.Drain).thieves == s.thieves
  {
    S.StepKeepsInv(s, D.Drain);
  }

  /** An owner step pushes a task, or returns one, or moves none. */
  lemma OwnerResults(d: D.State, st: D.Step)
    requires D.Enabled(d, st) && IsOwnerStep(st)
    ensures st.PushStoreBot? ==> JustPushed(d, st) == multiset{d.owner.x} && PopResult(d, st) == None
    ensures !st.PushStoreBot? ==> JustPushed(d, st) == multiset{}
    ensures !st.PopReadTaken? && !st.PopRestoreBot? ==> PopResult(d, st) == None
    ensures Result(d, st) == PopResult(d, st)
  {
  }

  /** What one owner step of worker `pc` does: it returns a popped task, or moves nothing. */
  lemma WorkerOwnerEffect(d: D.State, st: D.Step, pc: WorkerPc)
    requires I.Inv(d) && D.Enabled(d, st) && IsOwnerStep(st) && PcMatches(pc, R.OwnerCall(d.owner))
    requires if d.owner.Idle? then MayCall(pc, st) else pc.Popping? || pc.Submitting?
    ensures
      var d' := D.Do(d, st);
      var pc' := AfterOwnerStep(pc, d, st, d');
      && PcMatches(pc', R.OwnerCall(d'.owner)) && !pc'.Stealing? && !pc'.Sweeping? && !pc'.Exited? && !pc.Exited?
      && if pc.Popping? && pc'.Running? then
           Owed(d') + multiset{pc'.t} == Owed(d)
         else
           Owed(d') + BeingPushed(pc') == Owed(d) + BeingPushed(pc) && InHand(pc') == InHand(pc)
  {
    var d' := D.Do(d, st);
    OwedAfter(d, st);
    OwnerResults(d, st);
    OwnerPcAfter(d, st, pc, d');
    WorkerOwnerOwes(Owed(d), Owed(d'), PopResult(d, st), JustPushed(d, st), pc, AfterOwnerStep(pc, d, st, d'));
  }

  /** The worker's program counter follows the call of its deque. */
  lemma OwnerPcAfter(d: D.State, st: D.Step, pc: WorkerPc, d': D.State)
    requires D.Enabled(d, st) && IsOwnerStep(st) && PcMatches(pc, R.OwnerCall(d.owner)) && d' == D.Do(d, st)
    requires if d.owner.Idle? then MayCall(pc, st) else pc.Popping? || pc.Submitting?
    ensures
      var pc' := AfterOwnerStep(pc, d, st, d');
      && PcMatches(pc', R.OwnerCall(d'.owner))
      && match pc
         case AtTop => pc' == Popping && st.PopLoadBot?
         case Popping =>
           && !st.PushStoreBot?
           && if st.PopReadTaken? || st.PopRestoreBot? then
                pc' == if PopResult(d, st).Some? then Running(PopResult(d, st).value) else CheckPending
              else pc' == Popping
         case Submitting(t, x) =>
           && !st.PopReadTaken? && !st.PopRestoreBot?
           && if st.PushStoreBot? then d.owner.x == x && pc' == Running(t) else pc' == pc
         case _ => false
  {
    OwnerCallAfter(d, st);
    IdleIsNoCall(d);
    IdleIsNoCall(d');
  }

  lemma WorkerOwnerOwes(o: multiset<Task>, o': multiset<Task>, r: Option<Task>, p: multiset<Task>, pc: WorkerPc,
                        pc': WorkerPc)
    requires o' + Held(r) == o + p
    requires match pc
             case AtTop => pc' == Popping && r == None && p == multiset{}
             case Popping =>
               p == multiset{}
               && ((pc' == Popping && r == None) || (pc' == if r.Some? then Running(r.value) else CheckPending))
             case Submitting(t, x) =>
               r == None && ((pc' == pc && p == multiset{}) || (pc' == Running(t) && p == multiset{x}))
             case _ => false
    ensures if pc.Popping? && pc'.Running? then o' + multiset{pc'.t} == o
            else o' + BeingPushed(pc') == o + BeingPushed(pc) && InHand(pc') == InHand(pc)
  {
    if r == None {
      assert o' == o + p;
    }
  }

  /** What one step of a thief does to deque `d` and to the thief: it wins a task, or moves none. */
  ghost predicate ThiefMoved(d: D.State, d': D.State, i: nat, pc: WorkerPc, pc': WorkerPc)
    requires pc.Stealing?
  {
    && d'.owner == d.owner
    && i < |d.thieves| == |d'.thieves| && d'.thieves == d.thieves[i := d'.thieves[i]]
    && (d'.thieves[i].Out? <==> pc' != pc)
    && (pc' == pc || pc'.Running? || pc' == Sweeping(pc.start, pc.attempt + 1))
    && if pc'.Running? then Owed(d') + multiset{pc'.t} == Owed(d) else Owed(d') == Owed(d)
  }

  lemma ThiefEffect(d: D.State, st: D.Step, pc: WorkerPc)
    requires I.Inv(d) && D.Enabled(d, st) && IsThiefStep(st) && !st.ThiefLoadTop? && pc.Stealing?
    ensures I.Inv(D.Do(d, st)) && |D.Do(d, st).thieves| == |d.thieves|
    ensures ThiefMoved(d, D.Do(d, st), st.i, pc, AfterThiefStep(pc, d, st, D.Do(d, st)))
  {
    OwedAfter(d, st);
    ThiefOnlyMoves(d, st);
    if st.ThiefCas? && d.top == d.thieves[st.i].t {
      StolenIsTask(d, st);
    }
    ThiefPcAfter(d, st, pc, D.Do(d, st));
  }

  lemma ThiefPcAfter(d: D.State, st: D.Step, pc: WorkerPc, d': D.State)
    requires D.Enabled(d, st) && IsThiefStep(st) && !st.ThiefLoadTop? && pc.Stealing? && d' == D.Do(d, st)
    requires st.ThiefCas? && d.top == d.thieves[st.i].t ==> Stolen(d, st).Some?
    ensures st.i < |d.thieves| == |d'.thieves|
    ensures
      var pc' := AfterThiefStep(pc, d, st, d');
      && (d'.thieves[st.i].Out? <==> pc' != pc)
      && (Stolen(d, st) == None ==> pc' == pc || pc' == Sweeping(pc.start, pc.attempt + 1))
      && (Stolen(d, st).Some? ==> pc' == Running(Stolen(d, st).value))
  {
  }

  lemma StartStealEffect(d: D.State, w: nat)
    requires I.Inv(d) && D.Enabled(d, D.ThiefLoadTop(w))
    ensures
      var d' := D.Do(d, D.ThiefLoadTop(w));
      && I.Inv(d') && d'.owner == d.owner && w < |d.thieves| && |d'.thieves| == |d.thieves|
      && d'.thieves == d.thieves[w := d'.thieves[w]] && !d'.thieves[w].Out? && Owed(d') == Owed(d)
  {
    OwedAfter(d, D.ThiefLoadTop(w));
    ThiefOnlyMoves(d, D.ThiefLoadTop(w));
  }

  // ---------------------------------------------------------------- sums

  lemma OneLoad(s: Ws, s': Ws, v: nat)
    requires |s.workers| == |s.deques| == |s'.workers| == |s'.deques| && v < |s.deques|
    requires forall u | 0 <= u < |s.deques| && u != v ::
      s'.deques[u] == s.deques[u] && BeingPushed(s'.workers[u]) == BeingPushed(s.workers[u])
    ensures Sum(Loads(s')) + (Owed(s.deques[v]) + BeingPushed(s.workers[v]))
         == Sum(Loads(s)) + (Owed(s'.deques[v]) + BeingPushed(s'.workers[v]))
  {
    LoadMoves(s, s', v);
    SumUpdate(Loads(s), v, Loads(s')[v]);
  }

  lemma LoadMoves(s: Ws, s': Ws, v: nat)
    requires |s.workers| == |s.deques| == |s'.workers| == |s'.deques| && v < |s.deques|
    requires forall u | 0 <= u < |s.deques| && u != v ::
      s'.deques[u] == s.deques[u] && BeingPushed(s'.workers[u]) == BeingPushed(s.workers[u])
    ensures Loads(s') == Loads(s)[v := Loads(s')[v]]
  {
  }

  lemma OneHand(s: Ws, s': Ws, w: nat)
    requires w < |s.workers| == |s'.workers| && s'.workers == s.workers[w := s'.workers[w]]
    ensures Sum(Hands(s')) + InHand(s.workers[w]) == Sum(Hands(s)) + InHand(s'.workers[w])
  {
    SumUpdate(Hands(s), w, InHand(s'.workers[w]));
    assert Hands(s') == Hands(s)[w := InHand(s'.workers[w])];
  }

  lemma SameLoads(s: Ws, s': Ws)
    requires |s.workers| == |s.deques| == |s'.workers| == |s'.deques|
    requires forall u | 0 <= u < |s.deques| ::
      Owed(s'.deques[u]) == Owed(s.deques[u]) && BeingPushed(s'.workers[u]) == BeingPushed(s.workers[u])
    ensures Loads(s') == Loads(s)
  {
  }

  lemma SameHands(s: Ws, s': Ws)
    requires |s'.workers| == |s.workers|
    requires forall u | 0 <= u < |s.workers| :: InHand(s'.workers[u]) == InHand(s.workers[u])
    ensures Hands(s') == Hands(s)
  {
  }

  /** The task in a worker's hand is running. */
  lemma InHandIsRunning(s: Ws, w: nat)
    requires |s.workers| == |s.deques| && TasksOk(s) && w < |s.workers|
    requires (s.workers[w].Running? || s.workers[w].Submitting?)
    ensures s.workers[w].t in s.bag.running
  {
    SummandIsPart(Hands(s), w);
    assert s.workers[w].t in Hands(s)[w];
    assert s.workers[w].t in Sum(Hands(s));
  }

  /** What a deque owes is queued. */
  lemma OwedIsQueued(s: Ws, v: nat, t: Task)
    requires |s.workers| == |s.deques| && TasksOk(s) && v < |s.deques| && t in Owed(s.deques[v])
    ensures t in s.bag.queued
  {
    SummandIsPart(Loads(s), v);
    assert t in Loads(s)[v];
    assert t in Sum(Loads(s));
    assert t in multiset(s.bag.queued);
  }

  // ---------------------------------------------------------------- tasks, label by label

  lemma TasksStay(s: Ws, s': Ws)
    requires |s.workers| == |s.deques| == |s'.workers| == |s'.deques| && TasksOk(s)
    requires Injected(s') + Sum(Loads(s')) == Injected(s) + Sum(Loads(s)) && Sum(Hands(s')) == Sum(Hands(s))
    requires s'.pending == s.pending
    requires s'.bag.queued == s.bag.queued && s'.bag.running == s.bag.running && s'.bag.done == s.bag.done
    ensures TasksOk(s')
  {
  }

  lemma TaskSubmitted(s: Ws, s': Ws, x: Task)
    requires |s.workers| == |s.deques| == |s'.workers| == |s'.deques| && TasksOk(s) && Unseen(s.bag, x)
    requires Injected(s') + Sum(Loads(s')) == Injected(s) + Sum(Loads(s)) + multiset{x}
    requires Sum(Hands(s')) == Sum(Hands(s))
    requires s'.pending == s.pending + 1
    requires s'.bag == s.bag.(queued := s.bag.queued + {x})
    ensures TasksOk(s')
  {
    AddTo(s.bag.queued, Injected(s) + Sum(Loads(s)), Injected(s') + Sum(Loads(s')), x);
  }

  lemma TaskStarted(s: Ws, s': Ws, t: Task)
    requires |s.workers| == |s.deques| == |s'.workers| == |s'.deques| && TasksOk(s)
    requires Injected(s') + Sum(Loads(s')) + multiset{t} == Injected(s) + Sum(Loads(s))
    requires Sum(Hands(s')) == Sum(Hands(s)) + multiset{t}
    requires s'.pending == s.pending
    requires s'.bag == s.bag.(queued := s.bag.queued - {t}, running := s.bag.running + {t})
    ensures TasksOk(s') && t in s.bag.queued
  {
    TakeFrom(s.bag.queued, Injected(s) + Sum(Loads(s)), Injected(s') + Sum(Loads(s')), t);
    AddTo(s.bag.running, Sum(Hands(s)), Sum(Hands(s')), t);
  }

  lemma TaskFinished(s: Ws, s': Ws, t: Task)
    requires |s.workers| == |s.deques| == |s'.workers| == |s'.deques| && TasksOk(s)
    requires Injected(s') + Sum(Loads(s')) == Injected(s) + Sum(Loads(s))
    requires Sum(Hands(s')) + multiset{t} == Sum(Hands(s))
    requires s'.pending == s.pending - 1
    requires s'.bag == s.bag.(running := s.bag.running - {t}, done := s.bag.done + {t})
    ensures TasksOk(s') && t in s.bag.running
  {
    TakeFrom(s.bag.running, Sum(Hands(s)), Sum(Hands(s')), t);
  }

  // ---------------------------------------------------------------- victims

  /** A victim is always another worker. */
  lemma VictimIsNotSelf(id: nat, n: nat, start: nat, attempt: nat)
    requires id < n && n > 1
    ensures Victim(id, n, start, attempt) < n && Victim(id, n, start, attempt) != id
  {
    var v := (start + attempt) % n;
    if v == id && v + 1 < n {
      SmallModulo(v + 1, n);
    }
  }

  lemma SmallModulo(x: nat, n: nat)
    requires x < n
    ensures x % n == x
  {
  }

  // ---------------------------------------------------------------- calls

  /** Worker and deque `v` move within an owner call (or only the worker moves); all else stays. */
  lemma OwnerMoveKeepsCalls(s: Ws, s': Ws, v: nat)
    requires Sizes(s) && CallsMatch(s) && v < |s.deques| == |s'.deques| && |s'.workers| == |s.workers|
    requires s'.deques == s.deques[v := s'.deques[v]] && s'.deques[v].thieves == s.deques[v].thieves
    requires s'.workers == s.workers[v := s'.workers[v]]
    requires s'.workers[v].Stealing? == s.workers[v].Stealing?
    requires (s.workers[v].Stealing? ==> s'.workers[v] == s.workers[v])
    requires Launched(s') == Launched(s) && OwnerMatches(s', v) && SweepOk(s'.workers[v], v, |s'.workers|)
    requires !Launched(s) ==> v == 0 && forall u | 0 < u < |s.deques| :: CallAt(s, u).NoCall?
    ensures Sizes(s') && CallsMatch(s')
  {
    forall u | 0 <= u < |s'.deques|
      ensures OwnerMatches(s', u)
    {
      assert OwnerMatches(s, u);
    }
    forall u, w | 0 <= u < |s'.deques| && 0 <= w < |s'.workers|
      ensures ThiefMatches(s', u, w)
    {
      assert ThiefMatches(s, u, w);
    }
    forall w | 0 <= w < |s'.workers|
      ensures SweepOk(s'.workers[w], w, |s'.workers|)
    {
      assert SweepOk(s.workers[w], w, |s.workers|);
    }
  }

  /** Thief `w` moves within, into or out of a steal on deque `v`; all else stays. */
  lemma ThiefMoveKeepsCalls(s: Ws, s': Ws, v: nat, w: nat)
    requires Sizes(s) && CallsMatch(s) && v < |s.deques| == |s'.deques| && w < |s'.workers| == |s.workers|
    requires Launched(s) && Launched(s')
    requires s'.deques == s.deques[v := s'.deques[v]] && s'.deques[v].owner == s.deques[v].owner
    requires |s'.deques[v].thieves| == |s.deques[v].thieves|
    requires s'.deques[v].thieves == s.deques[v].thieves[w := s'.deques[v].thieves[w]]
    requires s'.workers == s.workers[w := s'.workers[w]]
    requires s.workers[w].Sweeping? || s.workers[w].Stealing?
    requires VictimOf(s, w) == v
    requires if s'.deques[v].thieves[w].Out? then !s'.workers[w].Stealing?
             else s'.workers[w] == Stealing(s.workers[w].start, s.workers[w].attempt)
    requires PcMatches(s'.workers[w], CallAt(s, w)) && SweepOk(s'.workers[w], w, |s'.workers|)
    ensures Sizes(s') && CallsMatch(s')
  {
    forall u | 0 <= u < |s'.deques|
      ensures OwnerMatches(s', u)
    {
      assert OwnerMatches(s, u);
    }
    forall u, x | 0 <= u < |s'.deques| && 0 <= x < |s'.workers|
      ensures ThiefMatches(s', u, x)
    {
      assert ThiefMatches(s, u, x);
    }
    forall x | 0 <= x < |s'.workers|
      ensures SweepOk(s'.workers[x], x, |s'.workers|)
    {
      assert SweepOk(s.workers[x], x, |s.workers|);
    }
  }

  /** No deque and no worker moves. */
  lemma DriverKeepsCalls(s: Ws, s': Ws)
    requires Sizes(s) && CallsMatch(s) && s'.deques == s.deques && s'.workers == s.workers
    requires forall v | 0 <= v < |s.deques| && OwnerMatches(s, v) :: OwnerMatches(s', v)
    ensures Sizes(s') && CallsMatch(s')
  {
    forall v | 0 <= v < |s'.deques|
      ensures OwnerMatches(s', v)
    {
      assert OwnerMatches(s, v);
    }
    forall v, w | 0 <= v < |s'.deques| && 0 <= w < |s'.workers|
      ensures ThiefMatches(s', v, w)
    {
      assert ThiefMatches(s, v, w);
    }
    forall w | 0 <= w < |s'.workers|
      ensures SweepOk(s'.workers[w], w, |s'.workers|)
    {
      assert SweepOk(s.workers[w], w, |s.workers|);
    }
  }

  // ---------------------------------------------------------------- the driver

  predicate IsDriverStep(step: WsStep) {
    || step.SubmitExternal? || step.CallRun? || step.LaunchWorkers?
    || step.SeeTasksPending? || step.SeePendingZero? || step.StoreShutdown? || step.JoinAll?
  }

  lemma DriverStepKeepsCalls(s: Ws, step: WsStep)
    requires Sizes(s) && CallsMatch(s) && Enabled(s, step) && IsDriverStep(step)
    ensures Sizes(Do(s, step)) && CallsMatch(Do(s, step))
  {
    DriverKeepsCalls(s, Do(s, step));
  }

  lemma SubmitExternalKeepsTasks(s: Ws, x: Task)
    requires Sizes(s) && TasksOk(s) && Enabled(s, SubmitExternal(x))
    ensures TasksOk(Do(s, SubmitExternal(x)))
  {
    var s' := Do(s, SubmitExternal(x));
    SameLoads(s, s');
    SameHands(s, s');
    assert Injected(s') == Injected(s) + multiset{x};
    TaskSubmitted(s, s', x);
  }

  lemma DriverStepLeaves(s: Ws, step: WsStep)
    requires EndOk(s) && Enabled(s, step) && IsDriverStep(step) && !step.SubmitExternal?
    ensures
      var s' := Do(s, step);
      && s'.deques == s.deques && s'.workers == s.workers && s'.pending == s.pending && Injected(s') == Injected(s)
      && s'.bag.queued == s.bag.queued && s'.bag.running == s.bag.running && s'.bag.done == s.bag.done
  {
    if step.CallRun? {
      assert s.inject[0..] == s.inject;
    } else if step.LaunchWorkers? {
      assert s.inject[s.main.i..] == [];
    }
  }

  lemma DriverStepKeepsTasks(s: Ws, s': Ws)
    requires |s.workers| == |s.deques| && TasksOk(s) && s'.deques == s.deques && s'.workers == s.workers
    requires s'.pending == s.pending && Injected(s') == Injected(s)
    requires s'.bag.queued == s.bag.queued && s'.bag.running == s.bag.running && s'.bag.done == s.bag.done
    ensures TasksOk(s')
  {
    SameLoads(s, s');
    SameHands(s, s');
    TasksStay(s, s');
  }

  /** `pending_` at zero means that nothing is queued and nothing runs. */
  lemma PendingZeroMeansQuiescent(s: Ws)
    requires |s.workers| == |s.deques| && TasksOk(s) && s.pending <= 0
    ensures Quiescent(s)
  {
  }

  /** Before the launch every worker is at the top of its loop. */
  lemma NotLaunchedMeansAtTop(s: Ws)
    requires Sizes(s) && CallsMatch(s) && !Launched(s)
    ensures forall w | 0 <= w < |s.workers| :: s.workers[w].AtTop?
  {
    forall w | 0 <= w < |s.workers|
      ensures s.workers[w].AtTop?
    {
      assert OwnerMatches(s, w);
    }
  }

  lemma DriverStepKeepsEnd(s: Ws, step: WsStep)
    requires EndOk(s) && Enabled(s, step) && IsDriverStep(step)
    requires step.SeePendingZero? ==> Quiescent(s)
    requires !Launched(s) ==> forall w | 0 <= w < |s.workers| :: s.workers[w].AtTop?
    ensures EndOk(Do(s, step))
  {
  }

  /** The steps of `run` itself, outside its pushes. */
  lemma DriverStepKeepsRest(s: Ws, step: WsStep)
    requires SchedulerOk(s) && Enabled(s, step) && IsDriverStep(step)
    ensures SchedulerOk(Do(s, step)) && Do(s, step).deques == s.deques
  {
    DriverStepKeepsCalls(s, step);
    if step.SubmitExternal? {
      SubmitExternalKeepsTasks(s, step.x);
    } else {
      DriverStepLeaves(s, step);
      DriverStepKeepsTasks(s, Do(s, step));
    }
    if step.SeePendingZero? {
      PendingZeroMeansQuiescent(s);
    } else if !Launched(s) {
      NotLaunchedMeansAtTop(s);
    }
    DriverStepKeepsEnd(s, step);
  }

  // ---------------------------------------------------------------- one deque among many

  lemma DequesStayOk(s: Ws, s': Ws, v: nat)
    requires DequesOk(s) && v < |s.deques| == |s'.deques| && s'.deques == s.deques[v := s'.deques[v]]
    requires I.Inv(s'.deques[v])
    ensures DequesOk(s')
  {
  }

  lemma DrainBufferKeepsInv(s: Ws, v: nat)
    requires Inv(s) && Enabled(s, DrainBuffer(v))
    ensures Inv(Do(s, DrainBuffer(v)))
  {
    var s' := Do(s, DrainBuffer(v));
    DrainOwesTheSame(s.deques[v]);
    DequesStayOk(s, s', v);
    DrainKeepsTasks(s, s', v);
    DrainKeepsCalls(s, s', v);
    DrainKeepsEnd(s, s', v);
  }

  lemma DrainKeepsTasks(s: Ws, s': Ws, v: nat)
    requires |s.workers| == |s.deques| && TasksOk(s) && v < |s.deques| == |s'.deques|
    requires s' == s.(deques := s.deques[v := s'.deques[v]])
    requires Owed(s'.deques[v]) == Owed(s.deques[v])
    ensures TasksOk(s')
  {
    SameLoads(s, s');
    SameHands(s, s');
    TasksStay(s, s');
  }

  lemma DrainKeepsCalls(s: Ws, s': Ws, v: nat)
    requires Sizes(s) && CallsMatch(s) && v < |s.deques| == |s'.deques|
    requires s' == s.(deques := s.deques[v := s'.deques[v]])
    requires s'.deques[v].owner == s.deques[v].owner && s'.deques[v].thieves == s.deques[v].thieves
    ensures Sizes(s') && CallsMatch(s')
  {
    forall u | 0 <= u < |s'.deques|
      ensures OwnerMatches(s', u)
    {
      assert OwnerMatches(s, u);
    }
    forall u, w | 0 <= u < |s'.deques| && 0 <= w < |s'.workers|
      ensures ThiefMatches(s', u, w)
    {
      assert ThiefMatches(s, u, w);
    }
  }

  lemma DrainKeepsEnd(s: Ws, s': Ws, v: nat)
    requires EndOk(s) && v < |s.deques| == |s'.deques| && s.deques[v].buf != []
    requires s' == s.(deques := s.deques[v := s'.deques[v]])
    ensures EndOk(s')
  {
  }

  // ---------------------------------------------------------------- pushes of the driver

  /** Deque 0 gains what the injection queue gives up. */
  lemma InjectedMoves(s: Ws, s': Ws, p: multiset<Task>)
    requires |s.workers| == |s.deques| == |s'.deques| >= 1 && TasksOk(s)
    requires s'.deques == s.deques[0 := s'.deques[0]] && s'.workers == s.workers
    requires s'.pending == s.pending && s'.bag == s.bag
    requires Injected(s) == p + Injected(s') && Owed(s'.deques[0]) == Owed(s.deques[0]) + p
    ensures TasksOk(s')
  {
    OneLoad(s, s', 0);
    SameHands(s, s');
    LoadsBalance(Injected(s), Injected(s'), Sum(Loads(s)), Sum(Loads(s')),
                 Owed(s.deques[0]), BeingPushed(s.workers[0]), p);
    TasksStay(s, s');
  }

  lemma LoadsBalance(i: multiset<Task>, i': multiset<Task>, l: multiset<Task>, l': multiset<Task>,
                     o: multiset<Task>, b: multiset<Task>, p: multiset<Task>)
    requires i == p + i' && l' + (o + b) == l + ((o + p) + b)
    ensures i' + l' == i + l
  {
    forall x
      ensures (i' + l')[x] == (i + l)[x]
    {
      assert (l' + (o + b))[x] == (l + ((o + p) + b))[x];
      assert i[x] == (p + i')[x];
    }
  }

  lemma MainOwnerStepKeepsInv(s: Ws, st: D.Step)
    requires Inv(s) && Enabled(s, MainOwnerStep(st))
    ensures Inv(Do(s, MainOwnerStep(st)))
  {
    var s' := Do(s, MainOwnerStep(st));
    OwedAfter(s.deques[0], st);
    DequesStayOk(s, s', 0);
    MainOwnerStepKeepsCalls(s, s', st);
    MainOwnerStepInjects(s, s', st);
    InjectedMoves(s, s', JustPushed(s.deques[0], st));
  }

  lemma MainOwnerStepInjects(s: Ws, s': Ws, st: D.Step)
    requires Enabled(s, MainOwnerStep(st)) && s' == Do(s, MainOwnerStep(st))
    requires JustPushed(s.deques[0], st) == if st.PushStoreBot? then multiset{s.inject[s.main.i]} else multiset{}
    requires !st.PopReadTaken? && !st.PopRestoreBot?
    ensures Injected(s) == JustPushed(s.deques[0], st) + Injected(s')
    ensures s'.bag == s.bag && Result(s.deques[0], st) == None
  {
    OwnerResults(s.deques[0], st);
    if st.PushStoreBot? {
      InjectedSplits(s.inject, s.main.i);
    }
  }

  lemma InjectedSplits(inject: seq<Task>, i: nat)
    requires i < |inject|
    ensures multiset(inject[i..]) == multiset{inject[i]} + multiset(inject[i + 1..])
  {
    assert inject[i..] == [inject[i]] + inject[i + 1..];
  }

  lemma MainOwnerStepKeepsCalls(s: Ws, s': Ws, st: D.Step)
    requires Sizes(s) && CallsMatch(s) && Enabled(s, MainOwnerStep(st)) && s' == Do(s, MainOwnerStep(st))
    ensures Sizes(s') && CallsMatch(s')
    ensures JustPushed(s.deques[0], st) == if st.PushStoreBot? then multiset{s.inject[s.main.i]} else multiset{}
    ensures !st.PopReadTaken? && !st.PopRestoreBot?
  {
    var d := s.deques[0];
    assert OwnerMatches(s, 0);
    OwnerCallAfter(d, st);
    IdleIsNoCall(d);
    OwnerLeavesThieves(d, st);
    forall u | 0 < u < |s.deques|
      ensures CallAt(s, u).NoCall?
    {
      assert OwnerMatches(s, u);
    }
    OwnerMoveKeepsCalls(s, s', 0);
  }

  // ---------------------------------------------------------------- workers on their own deque

  /** Worker `w` alone moves, on its own deque if at all; tasks it moves stay its own. */
  lemma WorkerKeepsTasks(s: Ws, s': Ws, w: nat)
    requires |s.workers| == |s.deques| == |s'.deques| == |s'.workers| && w < |s.workers| && TasksOk(s)
    requires s'.deques == s.deques[w := s'.deques[w]] && s'.workers == s.workers[w := s'.workers[w]]
    requires s'.bag == s.bag && s'.pending == s.pending && Injected(s') == Injected(s)
    requires Owed(s'.deques[w]) + BeingPushed(s'.workers[w]) == Owed(s.deques[w]) + BeingPushed(s.workers[w])
    requires InHand(s'.workers[w]) == InHand(s.workers[w])
    ensures TasksOk(s')
  {
    LoadsStay(s, s', w);
    SameHands(s, s');
    TasksStay(s, s');
  }

  lemma LoadsStay(s: Ws, s': Ws, w: nat)
    requires |s.workers| == |s.deques| == |s'.deques| == |s'.workers| && w < |s.workers|
    requires s'.deques == s.deques[w := s'.deques[w]] && s'.workers == s.workers[w := s'.workers[w]]
    requires Owed(s'.deques[w]) + BeingPushed(s'.workers[w]) == Owed(s.deques[w]) + BeingPushed(s.workers[w])
    ensures Sum(Loads(s')) == Sum(Loads(s))
  {
    OneLoad(s, s', w);
    Cancel(Sum(Loads(s')), Sum(Loads(s)), Owed(s.deques[w]) + BeingPushed(s.workers[w]));
  }

  /** Worker `w` takes task `t` from deque `v`. */
  lemma TakingKeepsTasks(s: Ws, s': Ws, v: nat, w: nat, t: Task)
    requires |s.workers| == |s.deques| == |s'.deques| == |s'.workers| && v < |s.workers|
    requires w < |s.workers| && TasksOk(s)
    requires s'.deques == s.deques[v := s'.deques[v]] && s'.workers == s.workers[w := Running(t)]
    requires s'.pending == s.pending && Injected(s') == Injected(s)
    requires s'.bag == s.bag.(queued := s.bag.queued - {t}, running := s.bag.running + {t})
    requires Owed(s'.deques[v]) + multiset{t} == Owed(s.deques[v])
    requires BeingPushed(s.workers[w]) == multiset{} && InHand(s.workers[w]) == multiset{}
    ensures TasksOk(s') && t in s.bag.queued
  {
    OneLoad(s, s', v);
    OneHand(s, s', w);
    TakenBalance(Sum(Loads(s)), Sum(Loads(s')), Owed(s.deques[v]), Owed(s'.deques[v]),
                 BeingPushed(s.workers[v]), Injected(s), t);
    TaskStarted(s, s', t);
  }

  lemma TakenBalance(l: multiset<Task>, l': multiset<Task>, o: multiset<Task>, o': multiset<Task>,
                     b: multiset<Task>, i: multiset<Task>, t: Task)
    requires l' + (o + b) == l + (o' + b) && o' + multiset{t} == o
    ensures i + l' + multiset{t} == i + l
  {
    forall x
      ensures (i + l' + multiset{t})[x] == (i + l)[x]
    {
      assert (l' + (o + b))[x] == (l + (o' + b))[x];
      assert (o' + multiset{t})[x] == o[x];
    }
  }

  /** The end of the run is not announced while a worker still has something to do. */
  lemma WorkerKeepsEnd(s: Ws, s': Ws, w: nat)
    requires EndOk(s) && Launched(s) && w < |s.workers| == |s'.workers| && s'.main == s.main
    requires s'.shutdown == s.shutdown
    requires !s.workers[w].Exited? && s'.workers == s.workers[w := s'.workers[w]]
    requires Quiescent(s) ==> Quiescent(s')
    requires s'.workers[w].Exited? ==> Quiescent(s')
    requires s'.bag.launched == s.bag.launched && s'.bag.returned == s.bag.returned
    ensures EndOk(s')
  {
  }

  lemma OwnerStepKeepsInv(s: Ws, w: nat, st: D.Step)
    requires Inv(s) && Enabled(s, OwnerStep(w, st))
    ensures Inv(Do(s, OwnerStep(w, st)))
  {
    var s' := Do(s, OwnerStep(w, st));
    var d, d', pc, pc' := s.deques[w], s'.deques[w], s.workers[w], s'.workers[w];
    assert OwnerMatches(s, w);
    OwedAfter(d, st);
    WorkerOwnerEffect(d, st, pc);
    OwnerLeavesThieves(d, st);
    DequesStayOk(s, s', w);
    OwnerStepShape(s, s', w, st);
    OwnerMoveKeepsCalls(s, s', w);
    if pc.Popping? && pc'.Running? {
      TakingKeepsTasks(s, s', w, w, pc'.t);
    } else {
      WorkerKeepsTasks(s, s', w);
    }
    WorkerKeepsEnd(s, s', w);
  }

  lemma OwnerStepShape(s: Ws, s': Ws, w: nat, st: D.Step)
    requires Enabled(s, OwnerStep(w, st)) && s' == Do(s, OwnerStep(w, st))
    ensures |s'.workers| == |s.workers| == |s'.deques| == |s.deques| && w < |s.workers|
    ensures
      var pc, pc' := s.workers[w], s'.workers[w];
      && s'.deques == s.deques[w := D.Do(s.deques[w], st)] && s'.workers == s.workers[w := pc']
      && pc' == AfterOwnerStep(pc, s.deques[w], st, D.Do(s.deques[w], st))
      && s'.main == s.main && s'.shutdown == s.shutdown && s'.pending == s.pending && s'.inject == s.inject
      && (pc.AtTop? || pc.Popping? || pc.Submitting?)
      && s'.bag == if pc.Popping? && pc'.Running?
                   then s.bag.(queued := s.bag.queued - {pc'.t}, running := s.bag.running + {pc'.t})
                   else s.bag
  {
  }

  // ---------------------------------------------------------------- workers outside deque calls

  /** Only worker `w` moves, between two points of its loop where it is in no deque call. */
  lemma LoopMoveKeepsCalls(s: Ws, s': Ws, w: nat)
    requires Sizes(s) && CallsMatch(s) && Worker(s, w) && s'.deques == s.deques && s'.main == s.main
    requires s'.inject == s.inject
    requires |s'.workers| == |s.workers| && s'.workers == s.workers[w := s'.workers[w]]
    requires !s.workers[w].Stealing? && !s'.workers[w].Stealing?
    requires PcMatches(s'.workers[w], CallAt(s, w)) && SweepOk(s'.workers[w], w, |s.workers|)
    ensures Sizes(s') && CallsMatch(s')
  {
    assert s'.deques == s.deques[w := s'.deques[w]];
    OwnerMoveKeepsCalls(s, s', w);
  }

  lemma LoopStepKeepsRest(s: Ws, s': Ws, w: nat)
    requires SchedulerOk(s) && Worker(s, w) && |s'.workers| == |s.workers|
    requires s' == s.(workers := s.workers[w := s'.workers[w]])
    requires !s.workers[w].Stealing? && !s'.workers[w].Stealing? && !s.workers[w].Exited?
    requires PcMatches(s'.workers[w], CallAt(s, w)) && SweepOk(s'.workers[w], w, |s.workers|)
    requires BeingPushed(s'.workers[w]) == BeingPushed(s.workers[w]) && InHand(s'.workers[w]) == InHand(s.workers[w])
    requires s'.workers[w].Exited? ==> Quiescent(s)
    ensures SchedulerOk(s')
  {
    LoopMoveKeepsCalls(s, s', w);
    assert s'.deques == s.deques[w := s'.deques[w]];
    WorkerKeepsTasks(s, s', w);
    WorkerKeepsEnd(s, s', w);
  }

  lemma SweepStartOk(w: nat, n: nat, start: nat, attempt: nat)
    requires w < n && n > 1
    ensures SweepOk(Sweeping(start, attempt), w, n) && SweepOk(Stealing(start, attempt), w, n)
  {
    VictimIsNotSelf(w, n, start, attempt);
  }

  lemma LoadShutdownKeepsRest(s: Ws, w: nat, r: nat)
    requires SchedulerOk(s) && Enabled(s, LoadShutdown(w, r))
    ensures SchedulerOk(Do(s, LoadShutdown(w, r))) && Do(s, LoadShutdown(w, r)).deques == s.deques
  {
    assert OwnerMatches(s, w);
    if |s.workers| > 1 {
      SweepStartOk(w, |s.workers|, StartVictim(w, |s.workers|, r), 0);
    }
    LoopStepKeepsRest(s, Do(s, LoadShutdown(w, r)), w);
  }

  lemma LoadPendingKeepsRest(s: Ws, w: nat)
    requires SchedulerOk(s) && Enabled(s, LoadPending(w))
    ensures SchedulerOk(Do(s, LoadPending(w))) && Do(s, LoadPending(w)).deques == s.deques
  {
    if s.pending == 0 {
      PendingZeroMeansQuiescent(s);
      SeesZeroKeepsRest(s, w);
    } else {
      SeesWorkKeepsRest(s, w);
    }
  }

  lemma SeesZeroKeepsRest(s: Ws, w: nat)
    requires SchedulerOk(s) && Enabled(s, LoadPending(w)) && s.pending == 0 && Quiescent(s)
    ensures SchedulerOk(Do(s, LoadPending(w)))
  {
    assert OwnerMatches(s, w);
    LoopStepKeepsRest(s, Do(s, LoadPending(w)), w);
  }

  lemma SeesWorkKeepsRest(s: Ws, w: nat)
    requires SchedulerOk(s) && Enabled(s, LoadPending(w)) && s.pending != 0
    ensures SchedulerOk(Do(s, LoadPending(w)))
  {
    assert OwnerMatches(s, w);
    LoopStepKeepsRest(s, Do(s, LoadPending(w)), w);
  }

  lemma GiveUpSweepKeepsRest(s: Ws, w: nat)
    requires SchedulerOk(s) && Enabled(s, GiveUpSweep(w))
    ensures SchedulerOk(Do(s, GiveUpSweep(w))) && Do(s, GiveUpSweep(w)).deques == s.deques
  {
    assert OwnerMatches(s, w);
    LoopStepKeepsRest(s, Do(s, GiveUpSweep(w)), w);
  }

  lemma GainBalance(l: multiset<Task>, l': multiset<Task>, o: multiset<Task>, i: multiset<Task>, x: Task)
    requires l' + (o + multiset{}) == l + (o + multiset{x})
    ensures i + l' == i + l + multiset{x}
  {
    forall y
      ensures (i + l')[y] == (i + l + multiset{x})[y]
    {
      assert (l' + (o + multiset{}))[y] == (l + (o + multiset{x}))[y];
    }
  }

  lemma ChildKeepsTasks(s: Ws, s': Ws, w: nat, x: Task)
    requires |s.workers| == |s.deques| && w < |s.workers| && TasksOk(s) && s.workers[w].Running? && Unseen(s.bag, x)
    requires s' == s.(pending := s.pending + 1, workers := s.workers[w := Submitting(s.workers[w].t, x)],
                      bag := s.bag.(queued := s.bag.queued + {x}))
    ensures TasksOk(s')
  {
    ChildIsPlaced(s, s', w, x);
    TaskSubmitted(s, s', x);
  }

  /** Submitting adds `x` to what worker `w` pushes; its hand and all others stay. */
  lemma ChildMoves(s: Ws, s': Ws, w: nat, x: Task)
    requires |s.workers| == |s.deques| && w < |s.workers| && s.workers[w].Running?
    requires s'.workers == s.workers[w := Submitting(s.workers[w].t, x)]
    ensures BeingPushed(s.workers[w]) == multiset{} && BeingPushed(s'.workers[w]) == multiset{x}
    ensures forall u | 0 <= u < |s.workers| :: InHand(s'.workers[u]) == InHand(s.workers[u])
    ensures forall u | 0 <= u < |s.workers| && u != w :: s'.workers[u] == s.workers[u]
  {
  }

  lemma ChildIsPlaced(s: Ws, s': Ws, w: nat, x: Task)
    requires |s.workers| == |s.deques| && w < |s.workers| && s.workers[w].Running?
    requires s'.workers == s.workers[w := Submitting(s.workers[w].t, x)]
    requires s'.deques == s.deques && s'.main == s.main && s'.inject == s.inject
    ensures Injected(s') + Sum(Loads(s')) == Injected(s) + Sum(Loads(s)) + multiset{x}
    ensures Sum(Hands(s')) == Sum(Hands(s))
  {
    ChildMoves(s, s', w, x);
    OneLoad(s, s', w);
    SameHands(s, s');
    GainBalance(Sum(Loads(s)), Sum(Loads(s')), Owed(s.deques[w]), Injected(s), x);
  }

  lemma SubmitChildKeepsRest(s: Ws, w: nat, x: Task)
    requires SchedulerOk(s) && Enabled(s, SubmitChild(w, x))
    ensures SchedulerOk(Do(s, SubmitChild(w, x))) && Do(s, SubmitChild(w, x)).deques == s.deques
  {
    var s' := Do(s, SubmitChild(w, x));
    assert OwnerMatches(s, w);
    LoopMoveKeepsCalls(s, s', w);
    InHandIsRunning(s, w);
    WorkerKeepsEnd(s, s', w);
    ChildKeepsTasks(s, s', w, x);
  }

  lemma DoneKeepsTasks(s: Ws, s': Ws, w: nat, t: Task)
    requires |s.workers| == |s.deques| && w < |s.workers| == |s'.workers| && TasksOk(s) && s.workers[w] == Running(t)
    requires s'.workers == s.workers[w := s'.workers[w]] && (s'.workers[w].AtTop? || s'.workers[w].Exited?)
    requires s'.deques == s.deques && s'.main == s.main && s'.inject == s.inject && s'.pending == s.pending - 1
    requires s'.bag == s.bag.(running := s.bag.running - {t}, done := s.bag.done + {t})
    ensures TasksOk(s')
  {
    DoneKeepsLoads(s, s', w, t);
    DoneDropsHand(s, s', w, t);
    TaskFinished(s, s', t);
  }

  lemma DoneKeepsLoads(s: Ws, s': Ws, w: nat, t: Task)
    requires |s.workers| == |s.deques| == |s'.deques| && w < |s.workers| == |s'.workers| && s.workers[w] == Running(t)
    requires s'.workers == s.workers[w := s'.workers[w]] && !s'.workers[w].Submitting?
    requires s'.deques == s.deques && s'.main == s.main && s'.inject == s.inject
    ensures Injected(s') + Sum(Loads(s')) == Injected(s) + Sum(Loads(s))
  {
    SameLoads(s, s');
  }

  lemma DoneDropsHand(s: Ws, s': Ws, w: nat, t: Task)
    requires w < |s.workers| == |s'.workers| && s.workers[w] == Running(t)
    requires s'.workers == s.workers[w := s'.workers[w]] && (s'.workers[w].AtTop? || s'.workers[w].Exited?)
    ensures Sum(Hands(s')) + multiset{t} == Sum(Hands(s))
  {
    OneHand(s, s', w);
  }

  lemma FinishTaskKeepsRest(s: Ws, w: nat)
    requires SchedulerOk(s) && Enabled(s, FinishTask(w))
    ensures SchedulerOk(Do(s, FinishTask(w))) && Do(s, FinishTask(w)).deques == s.deques
  {
    var s' := Do(s, FinishTask(w));
    assert OwnerMatches(s, w);
    LoopMoveKeepsCalls(s, s', w);
    DoneKeepsTasks(s, s', w, s.workers[w].t);
    if s.pending == 1 {
      PendingZeroMeansQuiescent(s');
    }
    WorkerKeepsEnd(s, s', w);
  }

  // ---------------------------------------------------------------- stealing

  lemma StartStealKeepsInv(s: Ws, w: nat)
    requires Inv(s) && Enabled(s, StartSteal(w))
    ensures Inv(Do(s, StartSteal(w)))
  {
    var s' := Do(s, StartSteal(w));
    var v := VictimOf(s, w);
    assert OwnerMatches(s, w) && SweepOk(s.workers[w], w, |s.workers|);
    StartStealEffect(s.deques[v], w);
    DequesStayOk(s, s', v);
    ThiefMoveKeepsCalls(s, s', v, w);
    StealMoveKeepsTasks(s, s', v, w);
    WorkerKeepsEnd(s, s', w);
  }

  /** Thief `w` moves on the deque of another, and takes nothing. */
  lemma StealMoveKeepsTasks(s: Ws, s': Ws, v: nat, w: nat)
    requires |s.workers| == |s.deques| == |s'.deques| == |s'.workers| && v < |s.workers|
    requires w < |s.workers| && TasksOk(s)
    requires s'.deques == s.deques[v := s'.deques[v]] && s'.workers == s.workers[w := s'.workers[w]]
    requires s'.pending == s.pending && Injected(s') == Injected(s) && s'.bag == s.bag
    requires Owed(s'.deques[v]) == Owed(s.deques[v])
    requires BeingPushed(s.workers[w]) == multiset{} == BeingPushed(s'.workers[w])
    requires InHand(s.workers[w]) == multiset{} == InHand(s'.workers[w])
    ensures TasksOk(s')
  {
    SameLoads(s, s');
    SameHands(s, s');
    TasksStay(s, s');
  }

  lemma ThiefStepKeepsInv(s: Ws, w: nat, st: D.Step)
    requires Inv(s) && Enabled(s, ThiefStep(w, st))
    ensures Inv(Do(s, ThiefStep(w, st)))
  {
    ThiefStepKeepsDeques(s, w, st);
    ThiefStepKeepsScheduler(s, w, st);
  }

  lemma ThiefStepKeepsDeques(s: Ws, w: nat, st: D.Step)
    requires DequesOk(s) && Enabled(s, ThiefStep(w, st))
    ensures DequesOk(Do(s, ThiefStep(w, st)))
  {
    var s' := Do(s, ThiefStep(w, st));
    S.StepKeepsInv(s.deques[VictimOf(s, w)], st);
    ThiefStepShape(s, s', w, st);
    DequesStayOk(s, s', VictimOf(s, w));
  }

  lemma ThiefStepKeepsScheduler(s: Ws, w: nat, st: D.Step)
    requires DequesOk(s) && SchedulerOk(s) && Enabled(s, ThiefStep(w, st))
    ensures SchedulerOk(Do(s, ThiefStep(w, st)))
  {
    ThiefStepMoves(s, w, st);
    ThiefStepKeepsRest(s, w, st);
  }

  /** What a thief's step does to its victim's deque. */
  lemma ThiefStepMoves(s: Ws, w: nat, st: D.Step)
    requires DequesOk(s) && Enabled(s, ThiefStep(w, st))
    ensures
      var d := s.deques[VictimOf(s, w)];
      && |D.Do(d, st).thieves| == |d.thieves|
      && ThiefMoved(d, D.Do(d, st), w, s.workers[w], AfterThiefStep(s.workers[w], d, st, D.Do(d, st)))
  {
    ThiefEffect(s.deques[VictimOf(s, w)], st, s.workers[w]);
  }

  lemma ThiefStepKeepsRest(s: Ws, w: nat, st: D.Step)
    requires Enabled(s, ThiefStep(w, st))
    requires
      var d := s.deques[VictimOf(s, w)];
      && |D.Do(d, st).thieves| == |d.thieves|
      && ThiefMoved(d, D.Do(d, st), w, s.workers[w], AfterThiefStep(s.workers[w], d, st, D.Do(d, st)))
    requires SchedulerOk(s)
    ensures SchedulerOk(Do(s, ThiefStep(w, st)))
  {
    var s' := Do(s, ThiefStep(w, st));
    ThiefStepShape(s, s', w, st);
    ThiefMoveKeepsRest(s, s', VictimOf(s, w), w);
  }

  /** Calls, tasks and the end, once it is known what the thief's step did to deque `v`. */
  lemma ThiefMoveKeepsRest(s: Ws, s': Ws, v: nat, w: nat)
    requires SchedulerOk(s) && Launched(s)
    requires w < |s.workers| == |s'.workers| && v < |s.deques| == |s'.deques| && s.workers[w].Stealing?
    requires VictimOf(s, w) == v
    requires s'.main == s.main && s'.shutdown == s.shutdown && s'.pending == s.pending && s'.inject == s.inject
    requires s'.deques == s.deques[v := s'.deques[v]] && s'.workers == s.workers[w := s'.workers[w]]
    requires ThiefMoved(s.deques[v], s'.deques[v], w, s.workers[w], s'.workers[w])
    requires
      var pc' := s'.workers[w];
      s'.bag == if pc'.Running? then s.bag.(queued := s.bag.queued - {pc'.t}, running := s.bag.running + {pc'.t})
                else s.bag
    ensures SchedulerOk(s')
  {
    var pc, pc' := s.workers[w], s'.workers[w];
    assert OwnerMatches(s, w) && SweepOk(pc, w, |s.workers|);
    SweepStartOk(w, |s.workers|, pc.start, pc.attempt + 1);
    ThiefMoveKeepsCalls(s, s', v, w);
    if pc'.Running? {
      TakingKeepsTasks(s, s', v, w, pc'.t);
    } else {
      StealMoveKeepsTasks(s, s', v, w);
    }
    WorkerKeepsEnd(s, s', w);
  }

  lemma ThiefStepShape(s: Ws, s': Ws, w: nat, st: D.Step)
    requires Enabled(s, ThiefStep(w, st)) && s' == Do(s, ThiefStep(w, st))
    ensures |s'.workers| == |s.workers| == |s'.deques| == |s.deques| && w < |s.workers|
    ensures
      var v, pc, pc' := VictimOf(s, w), s.workers[w], s'.workers[w];
      && v < |s.deques| && s'.deques == s.deques[v := D.Do(s.deques[v], st)] && s'.workers == s.workers[w := pc']
      && pc' == AfterThiefStep(pc, s.deques[v], st, D.Do(s.deques[v], st))
      && s'.main == s.main && s'.shutdown == s.shutdown && s'.pending == s.pending && s'.inject == s.inject
      && s'.bag == if pc'.Running? then s.bag.(queued := s.bag.queued - {pc'.t}, running := s.bag.running + {pc'.t})
                   else s.bag
  {
  }

  // ---------------------------------------------------------------- all steps

  lemma StepKeepsInv(s: Ws, step: WsStep)
    requires Inv(s) && Enabled(s, step)
    ensures Inv(Do(s, step))
  {
    if IsLoopStep(step) {
      LoopStepKeepsInv(s, step);
    } else if IsDriverStep(step) {
      DriverStepKeepsRest(s, step);
      SameDequesStayOk(s, Do(s, step));
    } else if step.ClearWorkers? {
      ClearWorkersKeepsInv(s);
    } else {
      DequeStepKeepsInv(s, step);
    }
  }

  lemma DequeStepKeepsInv(s: Ws, step: WsStep)
    requires Inv(s) && Enabled(s, step) && !IsLoopStep(step) && !IsDriverStep(step) && !step.ClearWorkers?
    ensures Inv(Do(s, step))
  {
    match step
    case MainOwnerStep(st) => MainOwnerStepKeepsInv(s, st);
    case DrainBuffer(v) => DrainBufferKeepsInv(s, v);
    case OwnerStep(w, st) => OwnerStepKeepsInv(s, w, st);
    case StartSteal(w) => StartStealKeepsInv(s, w);
    case ThiefStep(w, st) => ThiefStepKeepsInv(s, w, st);
  }

  lemma SameDequesStayOk(s: Ws, s': Ws)
    requires DequesOk(s) && s'.deques == s.deques
    ensures DequesOk(s')
  {
  }

  predicate IsLoopStep(step: WsStep) {
    step.SubmitChild? || step.FinishTask? || step.LoadPending? || step.LoadShutdown? || step.GiveUpSweep?
  }

  lemma LoopStepKeepsInv(s: Ws, step: WsStep)
    requires Inv(s) && Enabled(s, step) && IsLoopStep(step)
    ensures Inv(Do(s, step))
  {
    LoopStepKeepsScheduler(s, step);
    SameDequesStayOk(s, Do(s, step));
  }

  lemma LoopStepKeepsScheduler(s: Ws, step: WsStep)
    requires SchedulerOk(s) && Enabled(s, step) && IsLoopStep(step)
    ensures SchedulerOk(Do(s, step)) && Do(s, step).deques == s.deques
  {
    match step
    case SubmitChild(w, x) => SubmitChildKeepsRest(s, w, x);
    case FinishTask(w) => FinishTaskKeepsRest(s, w);
    case LoadPending(w) => LoadPendingKeepsRest(s, w);
    case LoadShutdown(w, r) => LoadShutdownKeepsRest(s, w, r);
    case GiveUpSweep(w) => GiveUpSweepKeepsRest(s, w);
  }

  // ---------------------------------------------------------------- fresh workers

  /** Workers and deques as they are made, before anything is submitted. */
  ghost predicate Fresh(s: Ws) {
    && Sizes(s) && s.main.Building? && s.inject == []
    && (forall v | 0 <= v < |s.deques| :: s.deques[v] == D.Init(|s.deques|))
    && (forall w | 0 <= w < |s.workers| :: s.workers[w].AtTop?)
  }

  lemma FreshDequesOk(s: Ws)
    requires Fresh(s)
    ensures DequesOk(s)
  {
    S.InitHasInv(|s.deques|);
  }

  lemma FreshCallsMatch(s: Ws)
    requires Fresh(s)
    ensures CallsMatch(s)
  {
  }

  lemma NothingPlaced(s: Ws)
    requires Fresh(s)
    ensures Injected(s) == Sum(Loads(s)) == Sum(Hands(s)) == multiset{}
  {
    NothingLoaded(s);
    SumOfEmpty(Hands(s));
  }

  lemma NothingLoaded(s: Ws)
    requires Fresh(s)
    ensures Sum(Loads(s)) == multiset{}
  {
    SumOfEmpty(Loads(s));
  }

  lemma FreshTasksOk(s: Ws)
    requires Fresh(s) && Quiescent(s) && s.pending == 0
    ensures TasksOk(s)
  {
    NothingPlaced(s);
  }

  lemma ClearWorkersKeepsInv(s: Ws)
    requires Inv(s) && Enabled(s, ClearWorkers)
    ensures Inv(Do(s, ClearWorkers))
  {
    var s' := Do(s, ClearWorkers);
    ClearedIsFresh(s);
    FreshDequesOk(s');
    FreshCallsMatch(s');
    FreshTasksOk(s');
  }

  lemma ClearedIsFresh(s: Ws)
    requires SchedulerOk(s) && Enabled(s, ClearWorkers)
    ensures
      var s' := Do(s, ClearWorkers);
      Fresh(s') && Quiescent(s') && s'.pending == 0 && EndOk(s')
  {
  }

  lemma InitHasInv(n: nat)
    requires n >= 1
    ensures Inv(Init(n))
  {
    FreshDequesOk(Init(n));
    FreshTasksOk(Init(n));
    FreshCallsMatch(Init(n));
  }

  /** The bag allows every label of the scheduler: it starts what is queued, and returns when all is done. */
  lemma StepAllowed(s: Ws, step: WsStep)
    requires Inv(s) && Enabled(s, step)
    ensures BagNext(s.bag, LabelOf(s, step), Do(s, step).bag)
  {
    match step
    case OwnerStep(w, st) =>
      OwnerStepStartsQueued(s, w, st);
    case ThiefStep(w, st) =>
      ThiefStepStartsQueued(s, w, st);
    case SubmitChild(w, x) => InHandIsRunning(s, w);
    case FinishTask(w) => InHandIsRunning(s, w);
    case _ =>
  }

  lemma OwnerStepStartsQueued(s: Ws, w: nat, st: D.Step)
    requires Inv(s) && Enabled(s, OwnerStep(w, st))
    ensures Allows(s.bag, LabelOf(s, OwnerStep(w, st)))
  {
    var s' := Do(s, OwnerStep(w, st));
    assert OwnerMatches(s, w);
    WorkerOwnerEffect(s.deques[w], st, s.workers[w]);
    OwnerStepShape(s, s', w, st);
    if s.workers[w].Popping? && s'.workers[w].Running? {
      OwedIsQueued(s, w, s'.workers[w].t);
    }
  }

  lemma ThiefStepStartsQueued(s: Ws, w: nat, st: D.Step)
    requires Inv(s) && Enabled(s, ThiefStep(w, st))
    ensures Allows(s.bag, LabelOf(s, ThiefStep(w, st)))
  {
    ThiefStepMoves(s, w, st);
    ThiefStartsQueued(s, w, st);
  }

  lemma ThiefStartsQueued(s: Ws, w: nat, st: D.Step)
    requires Enabled(s, ThiefStep(w, st))
    requires
      var d := s.deques[VictimOf(s, w)];
      && |D.Do(d, st).thieves| == |d.thieves|
      && ThiefMoved(d, D.Do(d, st), w, s.workers[w], AfterThiefStep(s.workers[w], d, st, D.Do(d, st)))
    requires |s.workers| == |s.deques| && TasksOk(s) && s.bag.launched
    ensures Allows(s.bag, LabelOf(s, ThiefStep(w, st)))
  {
    var s' := Do(s, ThiefStep(w, st));
    ThiefStepShape(s, s', w, st);
    if s'.workers[w].Running? {
      OwedIsQueued(s, VictimOf(s, w), s'.workers[w].t);
    }
  }
}
