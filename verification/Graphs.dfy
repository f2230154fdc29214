/** Finite directed multigraphs: paths, cycles, and counting edges. */
module Graphs {
  import opened Wrappers

  /** `succ[u]` lists the successors of `u`, one entry per edge. */
  type Graph = seq<seq<nat>>

  ghost predicate WellFormed(g: Graph) {
    forall u, k | 0 <= u < |g| && 0 <= k < |g[u]| :: g[u][k] < |g|
  }

  ghost predicate Edge(g: Graph, u: nat, v: nat) {
    u < |g| && v in g[u]
  }

  ghost predicate EdgeAt(g: Graph, p: seq<nat>, i: nat)
    requires i + 1 < |p|
  {
    Edge(g, p[i], p[i + 1])
  }

  /** A walk along edges; a single node is a walk too. */
  ghost predicate Path(g: Graph, p: seq<nat>) {
    && p != []
    && (forall i | 0 <= i < |p| :: p[i] < |g|)
    && (forall i: nat | i + 1 < |p| :: EdgeAt(g, p, i))
  }

  ghost predicate Cycle(g: Graph, p: seq<nat>) {
    Path(g, p) && |p| >= 2 && p[0] == Last(p)
  }

  /** `p` leads from a node on the cycle `c` to `v`. */
  ghost predicate FromCycle(g: Graph, c: seq<nat>, p: seq<nat>, v: nat) {
    Cycle(g, c) && Path(g, p) && p[0] in c && Last(p) == v
  }

  ghost predicate ReachableFromCycle(g: Graph, v: nat) {
    exists c, p :: FromCycle(g, c, p, v)
  }

  ghost predicate Acyclic(g: Graph) {
    forall p :: !Cycle(g, p)
  }

  // ---------------------------------------------------------------- a set without sources has a cycle

  /** Every member of `s` has a predecessor in `s`. */
  ghost predicate NoSources(g: Graph, s: set<nat>) {
    && (forall v | v in s :: v < |g|)
    && forall v {:trigger HasPredecessor(g, s, v)} | v in s :: HasPredecessor(g, s, v)
  }

  ghost predicate HasPredecessor(g: Graph, s: set<nat>, v: nat) {
    exists u :: u in s && Edge(g, u, v)
  }

  lemma PathCons(g: Graph, u: nat, q: seq<nat>)
    requires Path(g, q) && Edge(g, u, q[0])
    ensures Path(g, [u] + q) && Last([u] + q) == Last(q)
  {
    var p := [u] + q;
    forall i: nat | i + 1 < |p|
      ensures EdgeAt(g, p, i)
    {
      if i > 0 {
        assert EdgeAt(g, q, i - 1);
      }
    }
  }

  lemma SubPath(g: Graph, p: seq<nat>, i: nat, j: nat)
    requires Path(g, p) && i < j <= |p|
    ensures Path(g, p[i..j])
  {
    var q := p[i..j];
    forall k: nat | k + 1 < |q|
      ensures EdgeAt(g, q, k)
    {
      assert EdgeAt(g, p, i + k);
    }
  }

  /** Walking backwards from `v` for as long as wanted. */
  lemma {:induction false} WalkBack(g: Graph, s: set<nat>, v: nat, n: nat) returns (p: seq<nat>)
    requires NoSources(g, s) && v in s
    ensures Path(g, p) && |p| == n + 1 && Last(p) == v && p[0] in s
  {
    if n == 0 {
      p := [v];
    } else {
      var q := WalkBack(g, s, v, n - 1);
      assert HasPredecessor(g, s, q[0]);
      var u :| u in s && Edge(g, u, q[0]);
      PathCons(g, u, q);
      p := [u] + q;
    }
  }

  /** More entries than values: two entries agree. */
  lemma {:induction false} Pigeonhole(p: seq<nat>, n: nat) returns (i: nat, j: nat)
    requires |p| > n >= 1 && forall k | 0 <= k < |p| :: p[k] < n
    ensures i < j < |p| && p[i] == p[j]
    decreases n
  {
    if n == 1 {
      i, j := 0, 1;
    } else if k :| 0 <= k < |p| && p[k] == n - 1 {
      if m :| 0 <= m < |p| && m != k && p[m] == n - 1 {
        i, j := if k < m then k else m, if k < m then m else k;
      } else {
        var q := p[..k] + p[k + 1..];
        assert forall x | 0 <= x < |q| :: q[x] == p[if x < k then x else x + 1];
        var a, b := Pigeonhole(q, n - 1);
        i, j := if a < k then a else a + 1, if b < k then b else b + 1;
      }
    } else {
      i, j := Pigeonhole(p[..|p| - 1], n - 1);
    }
  }

  /** Hence every member of a set without sources is reachable from a cycle. */
  lemma NoSourcesMeansCycle(g: Graph, s: set<nat>, v: nat)
    requires NoSources(g, s) && v in s
    ensures ReachableFromCycle(g, v)
  {
    var p := WalkBack(g, s, v, |g|);
    var i, j := Pigeonhole(p, |g|);
    var c := p[i..j + 1];
    var q := p[j..|p|];
    SubPath(g, p, i, j + 1);
    SubPath(g, p, j, |p|);
    assert FromCycle(g, c, q, v);
  }

  lemma CycleNodesAreReachable(g: Graph, c: seq<nat>)
    requires Cycle(g, c)
    ensures ReachableFromCycle(g, c[0])
  {
    assert FromCycle(g, c, [c[0]], c[0]);
  }

  // ---------------------------------------------------------------- counting edges

  /** How often `v` occurs in `s` from position `k` on. */
  function CountFrom(s: seq<nat>, k: nat, v: nat): nat
    decreases |s| - k
  {
    if k >= |s| then 0 else (if s[k] == v then 1 else 0) + CountFrom(s, k + 1, v)
  }

  /** Edges into `v` from the nodes below `n`, not counting the first `from[u]` edges of each `u`. */
  function EdgesInto(g: Graph, from: seq<nat>, v: nat, n: nat): nat
    requires n <= |g| == |from|
  {
    if n == 0 then 0 else EdgesInto(g, from, v, n - 1) + CountFrom(g[n - 1], from[n - 1], v)
  }

  lemma {:induction false} CountIsPositive(s: seq<nat>, k: nat, v: nat)
    ensures CountFrom(s, k, v) > 0 <==> exists i :: k <= i < |s| && s[i] == v
    decreases |s| - k
  {
    if k < |s| {
      CountIsPositive(s, k + 1, v);
    }
  }

  /** The `k`-th edge of `u` leads to `v` and is not among those already passed. */
  ghost predicate EdgeLeft(g: Graph, from: seq<nat>, u: nat, k: nat, v: nat)
    requires |g| == |from|
  {
    u < |g| && from[u] <= k < |g[u]| && g[u][k] == v
  }

  /** Some edge into `v` is left exactly when the count is positive. */
  lemma {:induction false} EdgesArePositive(g: Graph, from: seq<nat>, v: nat, n: nat)
    requires n <= |g| == |from|
    ensures EdgesInto(g, from, v, n) > 0 <==> exists u: nat, k: nat :: u < n && EdgeLeft(g, from, u, k, v)
  {
    if n > 0 {
      EdgesArePositive(g, from, v, n - 1);
      CountIsPositive(g[n - 1], from[n - 1], v);
      if CountFrom(g[n - 1], from[n - 1], v) > 0 {
        var k :| from[n - 1] <= k < |g[n - 1]| && g[n - 1][k] == v;
        assert EdgeLeft(g, from, n - 1, k, v);
      }
      if u: nat, k: nat :| u < n && EdgeLeft(g, from, u, k, v) {
        assert u < n - 1 ==> EdgesInto(g, from, v, n - 1) > 0;
      }
    }
  }

  /** Passing one more edge of `u` lowers the count of that edge's target by one, and no other. */
  lemma {:induction false} PassingOneEdge(g: Graph, from: seq<nat>, u: nat, v: nat, n: nat)
    requires n <= |g| == |from| && u < |g| && from[u] < |g[u]|
    ensures EdgesInto(g, from, v, n) ==
      EdgesInto(g, from[u := from[u] + 1], v, n) + if u < n && g[u][from[u]] == v then 1 else 0
  {
    if n > 0 {
      PassingOneEdge(g, from, u, v, n - 1);
    }
  }

  /** Edges into `v`, none passed yet. */
  function InDegree(g: Graph, v: nat): nat {
    EdgesInto(g, seq(|g|, _ => 0), v, |g|)
  }

  /** How many of the first `n` nodes have no incoming edge. */
  function SourcesBelow(g: Graph, n: nat): nat {
    if n == 0 then 0 else SourcesBelow(g, n - 1) + if InDegree(g, n - 1) == 0 then 1 else 0
  }

  lemma {:induction false} SourcesGrow(g: Graph, m: nat, n: nat)
    requires m <= n
    ensures SourcesBelow(g, m) <= SourcesBelow(g, n)
  {
    if m < n {
      SourcesGrow(g, m, n - 1);
    }
  }
}
