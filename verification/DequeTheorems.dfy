/** What holds of the deque in every run, with any number of thieves and any interleaving. */
module DequeTheorems {
  import opened Wrappers
  import opened DequeModel
  import opened DequeInvariant
  import opened DequeSteps

  /** The steps can be taken one after the other from `s`, and end in `s'`. */
  ghost predicate Reaches(s: State, steps: seq<Step>, s': State)
    decreases |steps|
  {
    if steps == [] then s == s' else Enabled(s, steps[0]) && Reaches(Do(s, steps[0]), steps[1..], s')
  }

  lemma {:induction false} RunKeepsInv(s: State, steps: seq<Step>, s': State)
    requires Inv(s) && Reaches(s, steps, s')
    ensures Inv(s')
    decreases |steps|
  {
    if steps != [] {
      StepKeepsInv(s, steps[0]);
      RunKeepsInv(Do(s, steps[0]), steps[1..], s');
    }
  }

  /** In every run the pushed tasks are those returned, those claimed and those still in the deque. */
  lemma RunConserves(thieves: nat, steps: seq<Step>, s: State)
    requires Reaches(Init(thieves), steps, s)
    ensures s.pushed == s.returned + Claimed(s) + multiset(Content(s))
  {
    InitHasInv(thieves);
    RunKeepsInv(Init(thieves), steps, s);
  }

  /** No task is returned twice, nor while it is claimed or still in the deque. */
  lemma NoTaskReturnedTwice(thieves: nat, steps: seq<Step>, s: State, x: Task)
    requires Reaches(Init(thieves), steps, s)
    requires s.pushed[x] <= 1
    ensures s.returned[x] <= 1
    ensures x in s.returned ==> x !in Claimed(s) && x !in Content(s) && x in s.pushed
  {
    RunConserves(thieves, steps, s);
    assert s.pushed[x] == s.returned[x] + Claimed(s)[x] + multiset(Content(s))[x];
  }

  /** A winning steal gets the oldest task, whatever array it read the slot from. */
  lemma WinningStealGetsOldest(thieves: nat, steps: seq<Step>, s: State, i: nat)
    requires Reaches(Init(thieves), steps, s)
    requires Enabled(s, ThiefCas(i)) && s.thieves[i].t == s.top
    ensures Content(s) != [] && s.thieves[i].raw == Some(Content(s)[0])
    ensures Content(Do(s, ThiefCas(i))) == Content(s)[1..]
  {
    InitHasInv(thieves);
    RunKeepsInv(Init(thieves), steps, s);
    StealContent(s, i);
  }

  /**
   * Stale arrays are safe: the array a thief holds is still allocated, and while `top_` equals the index
   * the thief aims at, that array's slot in memory holds the oldest task, across any number of growths.
   */
  lemma StaleArrayIsSafe(thieves: nat, steps: seq<Step>, s: State, i: nat)
    requires Reaches(Init(thieves), steps, s)
    requires i < |s.thieves| && s.thieves[i].GotArray?
    ensures
      var GotArray(t, a) := s.thieves[i];
      && a < |s.mem.arrays|
      && (s.top == t ==> Content(s) != [] && At(s.mem, a, t) == Some(Content(s)[0]))
  {
    InitHasInv(thieves);
    RunKeepsInv(Init(thieves), steps, s);
    var vs := Versions(s.mem, s.buf);
    assert vs[0] == s.mem;
    assert ThiefOk(vs, s.top, s.log, s.thieves[i]);
  }

  /** At most one task is left, and if one, the owner's pop is still undecided about it. */
  predicate OnlyDisputedLeft(s: State) {
    && |Content(s)| <= 1
    && (Content(s) != [] ==> (s.owner.PopStored? || s.owner.PopRace? || s.owner.PopCas?) && s.owner.b == s.top)
  }

  /**
   * What an empty result of `steal` means: memory shows no untaken index.  That leaves at most the task an
   * undecided pop is about to claim exactly when the owner's own latest `bot_`, drained or not, shows
   * none either; so it does whenever no store is pending, as in a sequentially consistent run.
   */
  lemma EmptyStealMeans(thieves: nat, steps: seq<Step>, s: State, i: nat)
    requires Reaches(Init(thieves), steps, s)
    requires Enabled(s, ThiefLoadBot(i)) && Do(s, ThiefLoadBot(i)).thieves[i].Out?
    ensures s.mem.bot <= s.top
    ensures View(s).bot <= s.top <==> OnlyDisputedLeft(s)
    ensures s.buf == [] ==> View(s).bot <= s.top && OnlyDisputedLeft(s)
  {
    InitHasInv(thieves);
    RunKeepsInv(Init(thieves), steps, s);
    assert ThiefOk(Versions(s.mem, s.buf), s.top, s.log, s.thieves[i]);
    if s.buf == [] {
      OneVersion(s.mem);
    }
  }

  /** A lost race means that another agent has won the very index the thief was after. */
  lemma LostStealMeans(thieves: nat, steps: seq<Step>, s: State, i: nat)
    requires Reaches(Init(thieves), steps, s)
    requires Enabled(s, ThiefCas(i)) && s.thieves[i].t != s.top
    ensures 0 <= s.thieves[i].t < |s.winners| && s.winners[s.thieves[i].t] != Thief(i)
  {
    InitHasInv(thieves);
    RunKeepsInv(Init(thieves), steps, s);
    assert ThiefOk(Versions(s.mem, s.buf), s.top, s.log, s.thieves[i]);
  }

  /** A run may go on by any step that is enabled. */
  lemma {:induction false} RunGoesOn(s: State, steps: seq<Step>, m: State, step: Step)
    requires Reaches(s, steps, m) && Enabled(m, step)
    ensures Reaches(s, steps + [step], Do(m, step))
    decreases |steps|
  {
    if steps == [] {
      assert [step][1..] == [];
      assert steps + [step] == [step];
    } else {
      RunGoesOn(Do(s, steps[0]), steps[1..], m, step);
      assert (steps + [step])[1..] == steps[1..] + [step];
    }
  }

  /** There is room in the initial array. */
  predicate Roomy(s: State) {
    s.owner.Idle? && s.top == 0 && 0 <= View(s).bot <= 1 && View(s).cur == 0 && CapOf(View(s), 0) == Cap(0) == 256
  }

  /** The first three steps of a push are loads. */
  lemma PushLoads(s: State, x: Task) returns (s': State)
    requires Roomy(s)
    ensures forall init, steps | Reaches(init, steps, s) ::
      Reaches(init, steps + [PushLoadBot(x)] + [PushLoadTop] + [PushLoadArray], s')
    ensures s' == s.(owner := PushPut(x, View(s).bot, 0))
  {
    var s1 := Do(s, PushLoadBot(x));
    var s2 := Do(s1, PushLoadTop);
    s' := Do(s2, PushLoadArray);
    forall init, steps | Reaches(init, steps, s)
      ensures Reaches(init, steps + [PushLoadBot(x)] + [PushLoadTop] + [PushLoadArray], s')
    {
      RunGoesOn(init, steps, s, PushLoadBot(x));
      RunGoesOn(init, steps + [PushLoadBot(x)], s1, PushLoadTop);
      RunGoesOn(init, steps + [PushLoadBot(x)] + [PushLoadTop], s2, PushLoadArray);
    }
  }

  /** A push into the initial array, none of whose stores drains. */
  lemma UndrainedPush(steps: seq<Step>, s: State, x: Task) returns (steps': seq<Step>, s': State)
    requires Reaches(Init(1), steps, s) && Roomy(s)
    ensures Reaches(Init(1), steps', s') && s'.owner.Idle? && s'.log == s.log + [x]
    ensures s'.mem == s.mem && s'.top == s.top && s'.thieves == s.thieves
    ensures View(s') == Apply(Apply(View(s), PutSlot(0, View(s).bot, Some(x))), SetBot(View(s).bot + 1))
  {
    var s3 := PushLoads(s, x);
    var more := steps + [PushLoadBot(x)] + [PushLoadTop] + [PushLoadArray];
    var s4 := Do(s3, PushStoreSlot);
    s' := Do(s4, PushStoreBot);
    RunGoesOn(Init(1), more, s3, PushStoreSlot);
    RunGoesOn(Init(1), more + [PushStoreSlot], s4, PushStoreBot);
    steps' := more + [PushStoreSlot] + [PushStoreBot];
    VersionsAfterStore(s3.mem, s3.buf, PutSlot(0, s3.owner.b, Some(x)));
    VersionsAfterStore(s4.mem, s4.buf, SetBot(s4.owner.b + 1));
  }

  /** The condition of `EmptyStealMeans` can fail: two pushes may still be on their way to memory. */
  lemma EmptyStealMayMissPushes() returns (steps: seq<Step>, s: State)
    ensures Reaches(Init(1), steps, s) && s.thieves == [GotTop(0)]
    ensures Enabled(s, ThiefLoadBot(0)) && Do(s, ThiefLoadBot(0)).thieves[0].Out?
    ensures |Content(s)| == 2 && s.owner.Idle? && View(s).bot == 2
  {
    OneVersion(Init(1).mem);
    var first, s1 := UndrainedPush([], Init(1), 1);
    var second, s2 := UndrainedPush(first, s1, 2);
    RunGoesOn(Init(1), second, s2, ThiefLoadTop(0));
    steps, s := second + [ThiefLoadTop(0)], Do(s2, ThiefLoadTop(0));
  }
}
