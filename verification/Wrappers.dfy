/** Shared vocabulary: optional values and the identity of a heap-allocated task. */
module Wrappers {
  datatype Option<+T> = None | Some(value: T)

  /** A `Task` object is only ever moved around, never looked into: its identity is enough. */
  type Task = nat

  /** The tasks held by an optional task pointer, as a multiset of size zero or one. */
  function Held(p: Option<Task>): multiset<Task> {
    if p.Some? then multiset{p.value} else multiset{}
  }

  function Last<T>(s: seq<T>): T
    requires s != []
  {
    s[|s| - 1]
  }

  function Max(a: int, b: int): int {
    if a < b then b else a
  }

  /** A multiset of a sequence splits at its first element ... */
  lemma MultisetFirst<T>(s: seq<T>)
    requires s != []
    ensures multiset(s) == multiset{s[0]} + multiset(s[1..])
  {
    assert s == [s[0]] + s[1..];
  }

  /** ... and at its last. */
  lemma MultisetLast<T>(s: seq<T>)
    requires s != []
    ensures multiset(s) == multiset(s[..|s| - 1]) + multiset{Last(s)}
  {
    assert s == s[..|s| - 1] + [Last(s)];
  }

  /** Dropping the first element of a sequence and of its prefix drops the same rest. */
  lemma TailOfTail<T>(first: seq<T>, all: seq<T>)
    requires first != [] && first <= all
    ensures first[1..] <= all[1..] && all[1..][|first| - 1..] == all[|first|..] && first[0] == all[0]
  {
  }
}
