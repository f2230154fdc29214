/** Adding up the tasks held in many places. */
module Multisets {
  import opened Wrappers

  function Sum(ms: seq<multiset<Task>>): multiset<Task> {
    if ms == [] then multiset{} else Sum(ms[..|ms| - 1]) + Last(ms)
  }

  /** The sizes of the first `k` summands together. */
  function SizeBelow(ms: seq<multiset<Task>>, k: nat): nat
    requires k <= |ms|
  {
    if k == 0 then 0 else SizeBelow(ms, k - 1) + |ms[k - 1]|
  }

  lemma {:induction false} SizeOfSum(ms: seq<multiset<Task>>)
    ensures |Sum(ms)| == SizeBelow(ms, |ms|)
    decreases |ms|
  {
    if ms != [] {
      var n := |ms| - 1;
      SizeOfSum(ms[..n]);
      SizeOfPrefix(ms, ms[..n], n);
    }
  }

  lemma {:induction false} SizeOfPrefix(ms: seq<multiset<Task>>, front: seq<multiset<Task>>, k: nat)
    requires k <= |front| <= |ms| && front == ms[..|front|]
    ensures SizeBelow(front, k) == SizeBelow(ms, k)
    decreases k
  {
    if k > 0 {
      SizeOfPrefix(ms, front, k - 1);
    }
  }

  /** Replacing one summand. */
  lemma {:induction false} SumUpdate(ms: seq<multiset<Task>>, i: nat, m: multiset<Task>)
    requires i < |ms|
    ensures Sum(ms[i := m]) + ms[i] == Sum(ms) + m
  {
    var n := |ms| - 1;
    var ms' := ms[i := m];
    if i == n {
      assert ms'[..n] == ms[..n];
    } else {
      var front, last := ms[..n], Last(ms);
      SumUpdate(front, i, m);
      assert ms'[..n] == front[i := m];
      calc {
        Sum(ms') + ms[i];
        (Sum(front[i := m]) + last) + front[i];
        (Sum(front[i := m]) + front[i]) + last;
        (Sum(front) + m) + last;
        Sum(ms) + m;
      }
    }
  }

  lemma {:induction false} SummandIsPart(ms: seq<multiset<Task>>, i: nat)
    requires i < |ms|
    ensures ms[i] <= Sum(ms)
  {
    if i < |ms| - 1 {
      SummandIsPart(ms[..|ms| - 1], i);
    }
  }

  /** What is in a sum is in one of the summands. */
  lemma {:induction false} SummandOf(ms: seq<multiset<Task>>, t: Task) returns (i: nat)
    requires t in Sum(ms)
    ensures i < |ms| && t in ms[i]
  {
    var n := |ms| - 1;
    if t in Last(ms) {
      i := n;
    } else {
      i := SummandOf(ms[..n], t);
    }
  }

  lemma {:induction false} SumOfEmpty(ms: seq<multiset<Task>>)
    requires forall i | 0 <= i < |ms| :: ms[i] == multiset{}
    ensures Sum(ms) == multiset{}
  {
    if ms != [] {
      SumOfEmpty(ms[..|ms| - 1]);
    }
  }

  lemma AddToSet(s: set<Task>, x: Task)
    requires x !in s
    ensures multiset(s + {x}) == multiset(s) + multiset{x}
  {
  }

  lemma RemoveFromSet(s: set<Task>, x: Task)
    requires x in s
    ensures multiset(s) == multiset(s - {x}) + multiset{x}
  {
  }

  lemma Cancel(a: multiset<Task>, b: multiset<Task>, c: multiset<Task>)
    requires a + c == b + c
    ensures a == b
  {
    forall x
      ensures a[x] == b[x]
    {
      assert (a + c)[x] == (b + c)[x];
    }
  }

  /** Taking a task out of a set takes it out of every account of the set. */
  lemma TakeFrom(q: set<Task>, l: multiset<Task>, l': multiset<Task>, t: Task)
    requires multiset(q) == l && l' + multiset{t} == l
    ensures t in q && multiset(q - {t}) == l' && |q - {t}| == |q| - 1
  {
    assert t in multiset(q);
    RemoveFromSet(q, t);
    Cancel(multiset(q - {t}), l', multiset{t});
  }

  lemma AddTo(q: set<Task>, l: multiset<Task>, l': multiset<Task>, t: Task)
    requires multiset(q) == l && l' == l + multiset{t} && t !in q
    ensures multiset(q + {t}) == l' && |q + {t}| == |q| + 1
  {
    AddToSet(q, t);
  }
}
