/** Capacity and amortised cost of the growing ring. */
module DequeCost {
  import opened Wrappers
  import opened Arithmetic
  import opened CircularArrays
  import opened DequeModel
  import opened DequeInvariant
  import opened DequeSteps
  import opened DequeTheorems

  /** Slots in the arrays retired so far, when array `cur` is current. */
  function RetiredSlots(cur: nat): nat {
    if cur == 0 then 0 else RetiredSlots(cur - 1) + Cap(cur - 1)
  }

  /** Doubling makes all retired arrays together smaller than the current one. */
  lemma {:induction false} RetiredIsLessThanCurrent(cur: nat)
    ensures RetiredSlots(cur) == Cap(cur) - Cap(0)
  {
    if cur > 0 {
      RetiredIsLessThanCurrent(cur - 1);
      assert Cap(cur) == 2 * Cap(cur - 1);
    }
  }

  /** Entries copied by the growths that made `cur` current: one array each, full to its last slot. */
  function CopiedBy(cur: nat): int {
    Cap(cur) - Cap(0) - cur
  }

  ghost predicate PeakOk(s: State) {
    && |s.log| - s.top <= s.peak <= |s.pushed|
    && 0 <= s.peak
    && (s.owner.PushGotTop? ==> s.owner.b - s.owner.t <= s.peak)
  }

  ghost predicate CostOk(s: State) {
    var v := View(s);
    && Cap(v.cur) <= Max(Cap(0), 2 * (s.peak + 1))
    && s.copied == CopiedBy(v.cur) + (if s.owner.GrowCopy? then s.owner.i - s.owner.t else 0)
    && (s.owner.GrowCopy? ==> Cap(v.cur) - 1 <= s.peak)
  }

  lemma ViewAfterIssue(s: State, st: Store)
    ensures View(Issue(s, st)) == Apply(View(s), st)
  {
    VersionsAfterStore(s.mem, s.buf, st);
  }

  lemma ViewAfterDrain(s: State)
    requires s.buf != []
    ensures View(Do(s, Drain)) == View(s)
  {
    VersionsAfterDrain(s.mem, s.buf);
  }

  /** Which array the owner sees as current changes only when a growth is installed. */
  lemma CurAfter(s: State, step: Step)
    requires Enabled(s, step)
    ensures View(Do(s, step)).cur == if step.GrowInstall? then s.owner.next else View(s).cur
  {
    match step
    case Drain => ViewAfterDrain(s);
    case PushLoadArray =>
      if Do(s, step).owner.GrowCopy? {
        ViewAfterIssue(s, Alloc(2 * CapOf(View(s), View(s).cur)));
      }
    case GrowPut => ViewAfterIssue(s, PutSlot(s.owner.next, s.owner.i, At(View(s), s.owner.a, s.owner.i)));
    case GrowInstall => ViewAfterIssue(s, SetArray(s.owner.next));
    case PushStoreSlot => ViewAfterIssue(s, PutSlot(s.owner.a, s.owner.b, Some(s.owner.x)));
    case PushStoreBot => ViewAfterIssue(s, SetBot(s.owner.b + 1));
    case PopStoreBot => ViewAfterIssue(s, SetBot(s.owner.b));
    case PopRestoreBot => ViewAfterIssue(s, SetBot(s.owner.b + 1));
    case _ =>
  }

  lemma StepKeepsPeak(s: State, step: Step)
    requires ShapeOk(s) && PeakOk(s) && Enabled(s, step)
    ensures PeakOk(Do(s, step))
    ensures Do(s, step).peak >= s.peak
  {
  }

  lemma GrowStepKeepsCost(s: State, step: Step)
    requires ShapeOk(s) && PeakOk(s) && CostOk(s) && Enabled(s, step)
    requires step.PushLoadArray? || step.GrowPut?
    ensures CostOk(Do(s, step))
  {
    CurAfter(s, step);
  }

  lemma InstallKeepsCost(s: State)
    requires ShapeOk(s) && PeakOk(s) && CostOk(s) && Enabled(s, GrowInstall)
    ensures CostOk(Do(s, GrowInstall))
  {
    CurAfter(s, GrowInstall);
    assert Cap(s.owner.next) == 2 * Cap(s.owner.a);
  }

  lemma StepKeepsCost(s: State, step: Step)
    requires ShapeOk(s) && PeakOk(s) && CostOk(s) && Enabled(s, step)
    ensures CostOk(Do(s, step))
  {
    if step.PushLoadArray? || step.GrowPut? {
      GrowStepKeepsCost(s, step);
    } else if step.GrowInstall? {
      InstallKeepsCost(s);
    } else {
      var s' := Do(s, step);
      CurAfter(s, step);
      StepKeepsPeak(s, step);
      assert s'.copied == s.copied && s'.owner.GrowCopy? == s.owner.GrowCopy?;
      assert s.owner.GrowCopy? ==> s'.owner == s.owner;
    }
  }

  lemma {:induction false} RunKeepsCost(s: State, steps: seq<Step>, s': State)
    requires Inv(s) && PeakOk(s) && CostOk(s) && Reaches(s, steps, s')
    ensures PeakOk(s') && CostOk(s')
    decreases |steps|
  {
    if steps != [] {
      StepKeepsInv(s, steps[0]);
      StepKeepsPeak(s, steps[0]);
      StepKeepsCost(s, steps[0]);
      RunKeepsCost(Do(s, steps[0]), steps[1..], s');
    }
  }

  /**
   * In every run: one slot of the current array always stays free, growth starts only when exactly one
   * is free, the capacity is at most twice the peak number of live tasks (or the initial capacity),
   * retired arrays hold fewer slots than the current one, and copying costs at most two entries a push.
   */
  lemma CapacityAndCost(thieves: nat, steps: seq<Step>, s: State)
    requires Reaches(Init(thieves), steps, s)
    ensures
      var cap := CapOf(View(s), View(s).cur);
      && |Content(s)| <= cap - 1
      && (s.owner.GrowCopy? ==> s.owner.b - s.owner.t == cap - 1)
      && cap <= Max(Pow2(INITIAL_LOG2_CAP), 2 * (s.peak + 1))
      && s.peak <= |s.pushed|
      && RetiredSlots(View(s).cur) < cap
      && s.copied <= 2 * |s.pushed|
  {
    InitHasInv(thieves);
    OneVersion(Init(thieves).mem);
    RunKeepsInv(Init(thieves), steps, s);
    RunKeepsCost(Init(thieves), steps, s);
    RetiredIsLessThanCurrent(View(s).cur);
    assert Cap(0) == 256;
  }
}
