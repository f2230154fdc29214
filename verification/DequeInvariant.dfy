/** The inductive invariant of the deque, over the owner, all thieves, all arrays and all buffered stores. */
module DequeInvariant {
  import opened Wrappers
  import opened Arithmetic
  import opened CircularArrays
  import opened DequeModel

  function Cap(j: nat): nat {
    Pow2(INITIAL_LOG2_CAP + j)
  }

  /** One version of memory is well formed and exposes no index beyond the logical end. */
  ghost predicate VersionOk(m: Mem, log: seq<Task>) {
    && m.cur < |m.arrays|
    && (forall j | 0 <= j < |m.arrays| :: |m.arrays[j]| == Cap(j))
    && -1 <= m.bot <= |log|
  }

  ghost predicate VersionsOk(vs: seq<Mem>, log: seq<Task>) {
    && (forall k | 0 <= k < |vs| :: VersionOk(vs[k], log))
    && (forall j, k | 0 <= j <= k < |vs| :: vs[j].cur <= vs[k].cur)
  }

  /** Array `a` holds the logged task of index `i` in every version from `h` on. */
  ghost predicate Kept(vs: seq<Mem>, h: nat, a: nat, log: seq<Task>, i: int) {
    0 <= i < |log| && forall k | h <= k < |vs| :: At(vs[k], a, i) == Some(log[i])
  }

  /**
   * From version `h` on, whichever array a thief finds holds the logged task of index `i`, and goes on
   * holding it after the array is retired.
   */
  ghost predicate KeptEverywhere(vs: seq<Mem>, h: nat, log: seq<Task>, i: int) {
    0 <= i < |log| && forall j | h <= j < |vs| :: Kept(vs, j, vs[j].cur, log, i)
  }

  /** An untaken index exposed by some version is kept everywhere from that version on. */
  ghost predicate Published(vs: seq<Mem>, top: int, log: seq<Task>) {
    forall h, i | 0 <= h < |vs| && top <= i < vs[h].bot :: KeptEverywhere(vs, h, log, i)
  }

  /** The owner's view holds every logged task that is still untaken. */
  ghost predicate ContentOk(v: Mem, top: int, log: seq<Task>) {
    forall i | top <= i < |log| && 0 <= i :: At(v, v.cur, i) == Some(log[i])
  }

  /** A thief that can still win index `t` is about to get the task logged there. */
  ghost predicate ThiefOk(vs: seq<Mem>, top: int, log: seq<Task>, pc: ThiefPc)
    requires vs != []
  {
    match pc
    case Out => true
    case GotTop(t) => 0 <= t <= top
    case GotBot(t) => 0 <= t <= top && (t == top ==> KeptEverywhere(vs, 0, log, t))
    case GotArray(t, a) => 0 <= t <= top && a <= vs[0].cur && (t == top ==> Kept(vs, 0, a, log, t))
    case GotSlot(t, raw) => 0 <= t <= top && (t == top ==> t < |log| && raw == Some(log[t]))
  }

  /** What the owner's program counter promises about its view `v`. */
  ghost predicate OwnerOk(v: Mem, top: int, log: seq<Task>, buf: seq<Store>, pc: OwnerPc) {
    var cap := Cap(v.cur);
    && |log| - top <= cap - 1
    && (!pc.GrowCopy? ==> v.cur == |v.arrays| - 1)
    && match pc
       case Idle => v.bot == |log|
       case PushGotBot(_, b) => v.bot == b == |log|
       case PushGotTop(_, b, t) => v.bot == b == |log| && 0 <= t <= top && b - t <= cap - 1
       case GrowCopy(_, b, t, a, next, i) =>
         && v.bot == b == |log| && 0 <= t <= top && b - t == cap - 1 && t <= i <= b
         && a == v.cur && next == a + 1 == |v.arrays| - 1
         && forall j | t <= j < i :: At(v, next, j) == At(v, a, j)
       case PushPut(_, b, a) => v.bot == b == |log| && a == v.cur && b - top <= cap - 2
       case PushPublish(x, b, a) =>
         v.bot == b == |log| && a == v.cur && b - top <= cap - 2 && At(v, a, b) == Some(x)
       case PopGotBot(b) => v.bot == |log| == b + 1
       case PopGotArray(b, a) => v.bot == |log| == b + 1 && a == v.cur
       case PopStored(b, a) => v.bot == b == |log| - 1 && a == v.cur
       case PopTake(b, a, claim) => v.bot == b == |log| && a == v.cur && At(v, a, b) == Some(claim)
       case PopRace(b, a) => v.bot == b == |log| - 1 && a == v.cur && b <= top && buf == []
       case PopCas(b, raw) =>
         v.bot == b == |log| - 1 && b <= top && buf == [] && (top == b && 0 <= b ==> raw == Some(log[b]))
       case PopRestore(b, _) => v.bot == b == |log| - 1 && top == |log|
  }

  /** The part of the invariant about memory, with `vs` the versions of memory. */
  ghost predicate Shape(s: State, vs: seq<Mem>)
    requires vs != []
  {
    && 0 <= s.top <= |s.log|
    && VersionsOk(vs, s.log)
    && Published(vs, s.top, s.log)
    && ContentOk(Last(vs), s.top, s.log)
    && OwnerOk(Last(vs), s.top, s.log, s.buf, s.owner)
    && forall i | 0 <= i < |s.thieves| :: ThiefOk(vs, s.top, s.log, s.thieves[i])
  }

  /** Every pushed task is returned, claimed by the owner, or still in the deque: exactly once. */
  ghost predicate Conserved(s: State) {
    s.pushed == s.returned + Claimed(s) + multiset(Content(s))
  }

  /** Each index below `top_` was won by one claim, and never by a thief still trying for it. */
  ghost predicate WinnersOk(s: State) {
    && |s.winners| == s.top
    && forall i, j | 0 <= i < |s.thieves| && !s.thieves[i].Out? && s.thieves[i].t <= j < s.top ::
         0 <= j ==> s.winners[j] != Thief(i)
  }

  ghost predicate ShapeOk(s: State) {
    Shape(s, Versions(s.mem, s.buf))
  }

  ghost predicate Inv(s: State) {
    ShapeOk(s) && Conserved(s) && WinnersOk(s)
  }

  // ---------------------------------------------------------------- versions

  lemma {:induction false} VersionsAfterStore(m: Mem, buf: seq<Store>, st: Store)
    ensures Versions(m, buf + [st]) == Versions(m, buf) + [Apply(Last(Versions(m, buf)), st)]
    decreases |buf|
  {
    if buf == [] {
      assert [st][1..] == [];
      assert buf + [st] == [st];
      assert Versions(Apply(m, st), []) == [Apply(m, st)];
    } else {
      VersionsAfterStore(Apply(m, buf[0]), buf[1..], st);
      assert (buf + [st])[1..] == buf[1..] + [st];
      assert Last(Versions(m, buf)) == Last(Versions(Apply(m, buf[0]), buf[1..]));
    }
  }

  lemma VersionsAfterDrain(m: Mem, buf: seq<Store>)
    requires buf != []
    ensures Versions(Apply(m, buf[0]), buf[1..]) == Versions(m, buf)[1..]
    ensures Versions(m, buf)[0] == m
  {
  }

  lemma OneVersion(m: Mem)
    ensures Versions(m, []) == [m]
  {
  }

  // ---------------------------------------------------------------- issuing a store

  /** `v'` differs from `v` in no slot that an untaken task occupies in an array a thief can hold. */
  ghost predicate Harmless(v: Mem, v': Mem, top: int, end: int) {
    && v.cur <= v'.cur
    && forall a, i | 0 <= a <= v.cur && top <= i < end :: At(v', a, i) == At(v, a, i)
  }

  lemma HarmlessKeeps(vs: seq<Mem>, v': Mem, h: nat, a: nat, log: seq<Task>, log': seq<Task>, top: int, i: int)
    requires vs != [] && h < |vs| && a <= Last(vs).cur && top <= i
    requires Harmless(Last(vs), v', top, |log|)
    requires log <= log'
    requires Kept(vs, h, a, log, i)
    ensures Kept(vs + [v'], h, a, log', i)
  {
    var n := |vs|;
    forall k | h <= k < n + 1
      ensures At((vs + [v'])[k], a, i) == Some(log'[i])
    {
      if k == n {
        assert At(vs[n - 1], a, i) == Some(log[i]);
      }
    }
  }

  lemma HarmlessKeepsEverywhere(vs: seq<Mem>, v': Mem, h: nat, log: seq<Task>, log': seq<Task>, top: int, i: int)
    requires vs != [] && h < |vs| && top <= i
    requires VersionsOk(vs, log) && Harmless(Last(vs), v', top, |log|)
    requires log <= log' && ContentOk(v', top, log')
    requires KeptEverywhere(vs, h, log, i)
    ensures KeptEverywhere(vs + [v'], h, log', i)
  {
    var n := |vs|;
    forall j | h <= j < n + 1
      ensures Kept(vs + [v'], j, (vs + [v'])[j].cur, log', i)
    {
      if j < n {
        HarmlessKeeps(vs, v', j, vs[j].cur, log, log', top, i);
      }
    }
  }

  lemma HarmlessKeepsThief(vs: seq<Mem>, v': Mem, log: seq<Task>, log': seq<Task>, top: int, pc: ThiefPc)
    requires vs != [] && VersionsOk(vs, log) && Harmless(Last(vs), v', top, |log|)
    requires log <= log' && ContentOk(v', top, log') && ThiefOk(vs, top, log, pc)
    ensures ThiefOk(vs + [v'], top, log', pc)
  {
    if pc.GotBot? && pc.t == top {
      HarmlessKeepsEverywhere(vs, v', 0, log, log', top, top);
    } else if pc.GotArray? && pc.t == top {
      HarmlessKeeps(vs, v', 0, pc.a, log, log', top, top);
    }
  }

  lemma HarmlessKeepsPublished(vs: seq<Mem>, v': Mem, log: seq<Task>, log': seq<Task>, top: int)
    requires vs != [] && VersionsOk(vs, log) && Harmless(Last(vs), v', top, |log|)
    requires log <= log' && ContentOk(v', top, log') && v'.bot <= |log'| && 0 <= top
    requires Published(vs, top, log)
    ensures Published(vs + [v'], top, log')
  {
    var ws := vs + [v'];
    forall h, i | 0 <= h < |ws| && top <= i < ws[h].bot
      ensures KeptEverywhere(ws, h, log', i)
    {
      if h < |vs| {
        HarmlessKeepsEverywhere(vs, v', h, log, log', top, i);
      } else {
        assert Kept(ws, h, ws[h].cur, log', i);
      }
    }
  }

  /** The owner's stores: whatever it issues is harmless, so thieves keep their guarantees. */
  lemma IssueKeepsShape(s: State, st: Store, log': seq<Task>, pc': OwnerPc)
    requires ShapeOk(s) && s.log <= log'
    requires
      var v := View(s);
      var v' := Apply(v, st);
      && Harmless(v, v', s.top, |s.log|)
      && VersionOk(v', log') && ContentOk(v', s.top, log')
      && OwnerOk(v', s.top, log', s.buf + [st], pc')
    ensures
      var s' := Issue(s, st).(owner := pc', log := log');
      ShapeOk(s')
  {
    var vs := Versions(s.mem, s.buf);
    var v' := Apply(View(s), st);
    VersionsAfterStore(s.mem, s.buf, st);
    var ws := vs + [v'];
    assert VersionsOk(ws, log');
    HarmlessKeepsPublished(vs, v', s.log, log', s.top);
    forall i | 0 <= i < |s.thieves|
      ensures ThiefOk(ws, s.top, log', s.thieves[i])
    {
      HarmlessKeepsThief(vs, v', s.log, log', s.top, s.thieves[i]);
    }
  }
}
