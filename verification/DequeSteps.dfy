/** Every step of every thread, and every drain of the store buffer, keeps the invariant. */
module DequeSteps {
  import opened Wrappers
  import opened Arithmetic
  import opened CircularArrays
  import opened DequeModel
  import opened DequeInvariant

  // ---------------------------------------------------------------- the store buffer

  lemma DrainKeepsShape(s: State)
    requires ShapeOk(s) && s.buf != []
    ensures ShapeOk(Do(s, Drain))
  {
    var vs := Versions(s.mem, s.buf);
    var ws := vs[1..];
    VersionsAfterDrain(s.mem, s.buf);
    forall h, i | 0 <= h < |ws| && s.top <= i < ws[h].bot
      ensures KeptEverywhere(ws, h, s.log, i)
    {
      DropKeeps(vs, h, s.log, i);
    }
    forall i | 0 <= i < |s.thieves|
      ensures ThiefOk(ws, s.top, s.log, s.thieves[i])
    {
      var pc := s.thieves[i];
      if pc.GotBot? && pc.t == s.top {
        assert KeptEverywhere(vs, 1, s.log, pc.t);
        DropKeeps(vs, 0, s.log, pc.t);
      } else if pc.GotArray? && pc.t == s.top {
        assert forall k | 0 <= k < |ws| :: ws[k] == vs[k + 1];
      }
    }
  }

  lemma DropKeeps(vs: seq<Mem>, h: nat, log: seq<Task>, i: int)
    requires h + 1 < |vs| && KeptEverywhere(vs, h + 1, log, i)
    ensures KeptEverywhere(vs[1..], h, log, i)
  {
    var ws := vs[1..];
    forall j | h <= j < |ws|
      ensures Kept(ws, j, ws[j].cur, log, i)
    {
      assert Kept(vs, j + 1, vs[j + 1].cur, log, i);
      assert forall k | j <= k < |ws| :: ws[k] == vs[k + 1];
    }
  }

  // ---------------------------------------------------------------- push

  /** Storing anywhere but in an occupied slot of a reachable array harms nobody. */
  lemma PutIsHarmless(v: Mem, a: nat, b: int, p: Slot, top: int, log: seq<Task>)
    requires VersionOk(v, log) && 0 <= top && 0 <= b
    requires a < |v.arrays|
    requires a > v.cur || (a == v.cur && b == |log| && b - top < Cap(a))
    ensures Harmless(v, Apply(v, PutSlot(a, b, p)), top, |log|)
    ensures At(Apply(v, PutSlot(a, b, p)), a, b) == p
  {
    var v' := Apply(v, PutSlot(a, b, p));
    forall c, i | 0 <= c <= v.cur && top <= i < |log|
      ensures At(v', c, i) == At(v, c, i)
    {
      if c == a {
        NearbyIndicesDiffer(i, b, Cap(a));
      }
    }
  }

  lemma PushLoadArrayKeepsShape(s: State)
    requires ShapeOk(s) && s.owner.PushGotTop?
    ensures ShapeOk(Do(s, PushLoadArray))
  {
    var v := View(s);
    var PushGotTop(x, b, t) := s.owner;
    var cap := Cap(v.cur);
    if b - t >= cap - 1 {
      var st := Alloc(2 * cap);
      var v' := Apply(v, st);
      assert Cap(v.cur + 1) == 2 * cap;
      assert Harmless(v, v', s.top, |s.log|);
      IssueKeepsShape(s, st, s.log, GrowCopy(x, b, t, v.cur, |v.arrays|, t));
    }
  }

  /** One more entry copied into the array under construction; the copies made so far stay. */
  lemma CopyOne(v: Mem, log: seq<Task>, t: int, a: nat, i: int)
    requires VersionOk(v, log) && a == v.cur && a + 1 < |v.arrays|
    requires 0 <= t <= i < t + Cap(a)
    requires forall j | t <= j < i :: At(v, a + 1, j) == At(v, a, j)
    ensures
      var v' := Apply(v, PutSlot(a + 1, i, At(v, a, i)));
      && VersionOk(v', log) && v'.cur == v.cur && v'.bot == v.bot && |v'.arrays| == |v.arrays|
      && forall j | t <= j < i + 1 :: At(v', a + 1, j) == At(v', a, j)
  {
    var v' := Apply(v, PutSlot(a + 1, i, At(v, a, i)));
    assert Cap(a + 1) == 2 * Cap(a);
    assert v'.arrays[a + 1] == Put(v.arrays[a + 1], i, At(v, a, i));
    forall j | t <= j < i + 1
      ensures At(v', a + 1, j) == At(v', a, j)
    {
      assert At(v', a, j) == At(v, a, j);
      if j < i {
        NearbyIndicesDiffer(j, i, Cap(a + 1));
        assert At(v', a + 1, j) == At(v, a + 1, j);
      } else {
        assert At(v', a + 1, i) == At(v, a, i);
      }
    }
  }

  lemma GrowPutKeepsShape(s: State)
    requires ShapeOk(s) && Enabled(s, GrowPut)
    ensures ShapeOk(Do(s, GrowPut))
  {
    var v := View(s);
    var GrowCopy(x, b, t, a, next, i) := s.owner;
    CopyOne(v, s.log, t, a, i);
    PutIsHarmless(v, next, i, At(v, a, i), s.top, s.log);
    HarmlessKeepsContent(v, Apply(v, PutSlot(next, i, At(v, a, i))), s.top, s.log);
    IssueKeepsShape(s, PutSlot(next, i, At(v, a, i)), s.log, GrowCopy(x, b, t, a, next, i + 1));
  }

  lemma HarmlessKeepsContent(v: Mem, v': Mem, top: int, log: seq<Task>)
    requires Harmless(v, v', top, |log|) && v'.cur == v.cur && ContentOk(v, top, log)
    ensures ContentOk(v', top, log)
  {
  }

  lemma GrowInstallKeepsShape(s: State)
    requires ShapeOk(s) && Enabled(s, GrowInstall)
    ensures ShapeOk(Do(s, GrowInstall))
  {
    var v := View(s);
    var GrowCopy(x, b, t, a, next, i) := s.owner;
    var v' := Apply(v, SetArray(next));
    assert Cap(next) == 2 * Cap(a);
    forall j | s.top <= j < |s.log|
      ensures At(v', next, j) == Some(s.log[j])
    {
      assert At(v, next, j) == At(v, a, j);
    }
    assert Harmless(v, v', s.top, |s.log|);
    IssueKeepsShape(s, SetArray(next), s.log, PushPut(x, b, next));
  }

  lemma PushStoreSlotKeepsShape(s: State)
    requires ShapeOk(s) && s.owner.PushPut?
    ensures ShapeOk(Do(s, PushStoreSlot))
  {
    var PushPut(x, b, a) := s.owner;
    PutIsHarmless(View(s), a, b, Some(x), s.top, s.log);
    IssueKeepsShape(s, PutSlot(a, b, Some(x)), s.log, PushPublish(x, b, a));
  }

  lemma PushStoreBotKeepsShape(s: State)
    requires ShapeOk(s) && s.owner.PushPublish?
    ensures ShapeOk(Do(s, PushStoreBot))
  {
    var PushPublish(x, b, a) := s.owner;
    var v := View(s);
    var v' := Apply(v, SetBot(b + 1));
    var log' := s.log + [x];
    assert Harmless(v, v', s.top, |s.log|);
    assert ContentOk(v', s.top, log');
    IssueKeepsShape(s, SetBot(b + 1), log', Idle);
  }

  // ---------------------------------------------------------------- pop

  lemma PopStoreBotKeepsShape(s: State)
    requires ShapeOk(s) && s.owner.PopGotArray?
    ensures ShapeOk(Do(s, PopStoreBot))
  {
    var PopGotArray(b, a) := s.owner;
    assert Harmless(View(s), Apply(View(s), SetBot(b)), s.top, |s.log|);
    IssueKeepsShape(s, SetBot(b), s.log, PopStored(b, a));
  }

  /**
   * The heart of the algorithm.  Behind the fence memory shows `bot_ == b`; if then `top_ < b`, every
   * thief that has looked is below `b` and none can reach it any more: no CAS is needed.
   */
  lemma PopLoadTopKeepsShape(s: State)
    requires ShapeOk(s) && Enabled(s, PopLoadTop)
    ensures ShapeOk(Do(s, PopLoadTop))
  {
    var PopStored(b, a) := s.owner;
    var vs := Versions(s.mem, s.buf);
    OneVersion(s.mem);
    if s.top < b {
      var log' := s.log[..b];
      forall h, i | 0 <= h < |vs| && s.top <= i < vs[h].bot
        ensures KeptEverywhere(vs, h, log', i)
      {
        TruncateKeeps(vs, h, s.log, b, i);
      }
      forall i | 0 <= i < |s.thieves|
        ensures ThiefOk(vs, s.top, log', s.thieves[i])
      {
        var pc := s.thieves[i];
        if pc.GotBot? && pc.t == s.top {
          TruncateKeeps(vs, 0, s.log, b, pc.t);
        }
      }
    }
  }

  lemma TruncateKeeps(vs: seq<Mem>, h: nat, log: seq<Task>, b: nat, i: int)
    requires i < b <= |log| && KeptEverywhere(vs, h, log, i)
    ensures KeptEverywhere(vs, h, log[..b], i)
  {
    forall j | h <= j < |vs|
      ensures Kept(vs, j, vs[j].cur, log[..b], i)
    {
      assert Kept(vs, j, vs[j].cur, log, i);
    }
  }

  lemma PopReadKeepsShape(s: State, step: Step)
    requires ShapeOk(s) && Enabled(s, step) && (step.PopReadTaken? || step.PopReadRaced?)
    ensures ShapeOk(Do(s, step))
  {
    OneVersion(s.mem);
  }

  lemma PopRestoreBotKeepsShape(s: State)
    requires ShapeOk(s) && s.owner.PopRestore?
    ensures ShapeOk(Do(s, PopRestoreBot))
  {
    var PopRestore(b, r) := s.owner;
    assert Harmless(View(s), Apply(View(s), SetBot(b + 1)), s.top, |s.log|);
    IssueKeepsShape(s, SetBot(b + 1), s.log, Idle);
  }

  // ---------------------------------------------------------------- advancing top

  /** A successful CAS on `top_`, whoever makes it: every other thief at the old index has lost. */
  lemma AdvanceKeepsShape(s: State, pc': OwnerPc, thieves': seq<ThiefPc>)
    requires ShapeOk(s) && s.top < |s.log| && |thieves'| == |s.thieves|
    requires forall i | 0 <= i < |thieves'| :: thieves'[i] == Out || thieves'[i] == s.thieves[i]
    requires OwnerOk(View(s), s.top + 1, s.log, s.buf, pc')
    ensures
      var s' := s.(top := s.top + 1, owner := pc', thieves := thieves');
      ShapeOk(s')
  {
    var vs := Versions(s.mem, s.buf);
    forall h, i | 0 <= h < |vs| && s.top + 1 <= i < vs[h].bot
      ensures KeptEverywhere(vs, h, s.log, i)
    {
    }
  }

  lemma PopRaceCasKeepsShape(s: State)
    requires ShapeOk(s) && Enabled(s, PopRaceCas)
    ensures ShapeOk(Do(s, PopRaceCas))
  {
    var PopCas(b, raw) := s.owner;
    if s.top == b {
      AdvanceKeepsShape(s, PopRestore(b, raw), s.thieves);
    }
  }

  lemma ThiefCasKeepsShape(s: State, i: nat)
    requires ShapeOk(s) && Enabled(s, ThiefCas(i))
    ensures ShapeOk(Do(s, ThiefCas(i)))
  {
    var GotSlot(t, raw) := s.thieves[i];
    assert ThiefOk(Versions(s.mem, s.buf), s.top, s.log, s.thieves[i]);
    if s.top == t {
      TopBelowEndKeepsOwner(s);
      AdvanceKeepsShape(s, s.owner, s.thieves[i := Out]);
    }
  }

  lemma TopBelowEndKeepsOwner(s: State)
    requires ShapeOk(s) && s.top < |s.log|
    ensures OwnerOk(View(s), s.top + 1, s.log, s.buf, s.owner)
  {
  }

  // ---------------------------------------------------------------- steal

  lemma ThiefLoadKeepsShape(s: State, step: Step)
    requires ShapeOk(s) && Enabled(s, step)
    requires step.ThiefLoadTop? || step.ThiefLoadBot? || step.ThiefLoadArray? || step.ThiefLoadSlot?
    ensures ShapeOk(Do(s, step))
  {
    var vs := Versions(s.mem, s.buf);
    assert vs[0] == s.mem;
    var pc := s.thieves[step.i];
    assert ThiefOk(vs, s.top, s.log, pc);
    if step.ThiefLoadBot? && pc.t < s.mem.bot && pc.t == s.top {
      assert KeptEverywhere(vs, 0, s.log, pc.t);
    } else if step.ThiefLoadArray? && pc.t == s.top {
      assert Kept(vs, 0, vs[0].cur, s.log, pc.t);
    }
  }

  // ---------------------------------------------------------------- bookkeeping

  /** What the content becomes where it changes at all. */
  lemma ContentChanges(s: State)
    requires ShapeOk(s)
    ensures s.owner.PushPublish? ==> Content(Do(s, PushStoreBot)) == Content(s) + [s.owner.x]
    ensures Enabled(s, PopLoadTop) && s.top < s.owner.b ==>
      var s' := Do(s, PopLoadTop);
      Content(s) != [] && s'.owner.PopTake? && s'.owner.claim == Last(Content(s))
      && Content(s') == Content(s)[..|Content(s)| - 1]
    ensures Enabled(s, PopRaceCas) && s.top == s.owner.b ==>
      s.owner.raw.Some? && Content(s) == [s.owner.raw.value] && Content(Do(s, PopRaceCas)) == []
  {
  }

  lemma StealContent(s: State, i: nat)
    requires ShapeOk(s) && Enabled(s, ThiefCas(i)) && s.top == s.thieves[i].t
    ensures Content(s) != [] && s.thieves[i].raw == Some(Content(s)[0])
    ensures Content(Do(s, ThiefCas(i))) == Content(s)[1..]
  {
    assert ThiefOk(Versions(s.mem, s.buf), s.top, s.log, s.thieves[i]);
  }

  /** The steps that return or claim nothing and publish nothing. */
  predicate Quiet(step: Step) {
    && !step.PushStoreBot? && !step.PopLoadTop? && !step.PopReadTaken? && !step.PopRaceCas?
    && !step.PopRestoreBot? && !step.ThiefCas?
  }

  lemma QuietStep(s: State, step: Step)
    requires Enabled(s, step) && Quiet(step)
    ensures
      var s' := Do(s, step);
      && s'.top == s.top && s'.log == s.log && s'.pushed == s.pushed && s'.returned == s.returned
      && Claimed(s') == Claimed(s)
  {
  }

  /** A return hands over exactly what had been claimed. */
  lemma ReturnConserves(s: State, step: Step)
    requires ShapeOk(s) && Conserved(s) && Enabled(s, step) && (step.PopReadTaken? || step.PopRestoreBot?)
    ensures Conserved(Do(s, step))
  {
    var s' := Do(s, step);
    assert s'.returned == s.returned + Claimed(s) && Claimed(s') == multiset{};
    assert Content(s') == Content(s);
  }

  lemma PublishConserves(s: State)
    requires ShapeOk(s) && Conserved(s) && s.owner.PushPublish?
    ensures Conserved(Do(s, PushStoreBot))
  {
    ContentChanges(s);
  }

  lemma PopLoadTopConserves(s: State)
    requires ShapeOk(s) && Conserved(s) && Enabled(s, PopLoadTop)
    ensures Conserved(Do(s, PopLoadTop))
  {
    ContentChanges(s);
    if s.top < s.owner.b {
      ClaimingLastConserves(s, Do(s, PopLoadTop));
    }
  }

  lemma ClaimingLastConserves(s: State, s': State)
    requires Conserved(s) && Content(s) != [] && Claimed(s) == multiset{}
    requires s'.pushed == s.pushed && s'.returned == s.returned
    requires Claimed(s') == multiset{Last(Content(s))} && Content(s') == Content(s)[..|Content(s)| - 1]
    ensures Conserved(s')
  {
    MultisetLast(Content(s));
  }

  lemma PopRaceCasConserves(s: State)
    requires ShapeOk(s) && Conserved(s) && Enabled(s, PopRaceCas)
    ensures Conserved(Do(s, PopRaceCas))
  {
    ContentChanges(s);
    var s' := Do(s, PopRaceCas);
    if s.top == s.owner.b {
      assert Claimed(s') == multiset(Content(s));
    } else {
      assert Claimed(s') == multiset{};
    }
  }

  lemma StealConserves(s: State, i: nat)
    requires ShapeOk(s) && Conserved(s) && Enabled(s, ThiefCas(i))
    ensures Conserved(Do(s, ThiefCas(i)))
  {
    if s.top == s.thieves[i].t {
      StealContent(s, i);
      MultisetFirst(Content(s));
    }
  }

  lemma StepConserves(s: State, step: Step)
    requires ShapeOk(s) && Conserved(s) && Enabled(s, step)
    ensures Conserved(Do(s, step))
  {
    match step
    case PushStoreBot => PublishConserves(s);
    case PopLoadTop => PopLoadTopConserves(s);
    case PopRaceCas => PopRaceCasConserves(s);
    case PopReadTaken => ReturnConserves(s, step);
    case PopRestoreBot => ReturnConserves(s, step);
    case ThiefCas(i) => StealConserves(s, i);
    case _ => QuietStep(s, step);
  }

  lemma StepKeepsWinners(s: State, step: Step)
    requires ShapeOk(s) && WinnersOk(s) && Enabled(s, step)
    ensures WinnersOk(Do(s, step))
  {
  }

  // ---------------------------------------------------------------- all steps

  lemma StepKeepsShape(s: State, step: Step)
    requires ShapeOk(s) && Enabled(s, step)
    ensures ShapeOk(Do(s, step))
  {
    match step
    case Drain => DrainKeepsShape(s);
    case PushLoadBot(x) =>
    case PushLoadTop =>
    case PushLoadArray => PushLoadArrayKeepsShape(s);
    case GrowPut => GrowPutKeepsShape(s);
    case GrowInstall => GrowInstallKeepsShape(s);
    case PushStoreSlot => PushStoreSlotKeepsShape(s);
    case PushStoreBot => PushStoreBotKeepsShape(s);
    case PopLoadBot =>
    case PopLoadArray =>
    case PopStoreBot => PopStoreBotKeepsShape(s);
    case PopLoadTop => PopLoadTopKeepsShape(s);
    case PopReadTaken => PopReadKeepsShape(s, step);
    case PopReadRaced => PopReadKeepsShape(s, step);
    case PopRaceCas => PopRaceCasKeepsShape(s);
    case PopRestoreBot => PopRestoreBotKeepsShape(s);
    case ThiefCas(i) => ThiefCasKeepsShape(s, i);
    case _ => ThiefLoadKeepsShape(s, step);
  }

  lemma StepKeepsInv(s: State, step: Step)
    requires Inv(s) && Enabled(s, step)
    ensures Inv(Do(s, step))
  {
    StepKeepsShape(s, step);
    StepConserves(s, step);
    StepKeepsWinners(s, step);
  }

  lemma InitHasInv(thieves: nat)
    ensures Inv(Init(thieves))
  {
    OneVersion(Init(thieves).mem);
  }
}
