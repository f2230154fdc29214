/** The growable ring of task pointers behind the Chase-Lev deque. */
module CircularArrays {
  import opened Wrappers
  import opened Arithmetic

  /** A slot of the ring: a raw `Task*`, `None` being the null pointer. */
  type Slot = Option<Task>

  const INITIAL_LOG2_CAP: nat := 8

  /** The entry that index `i` selects. */
  function Get(a: seq<Slot>, i: nat): Slot
    requires a != []
  {
    a[i % |a|]
  }

  function Put(a: seq<Slot>, i: nat, p: Slot): (r: seq<Slot>)
    requires a != []
    ensures |r| == |a|
  {
    a[i % |a| := p]
  }

  /** A ring with room for twice as many entries, holding the entries `[top, bot)` of `a`. */
  function Grown(a: seq<Slot>, bot: nat, top: nat): (r: seq<Slot>)
    requires a != [] && top <= bot
    ensures |r| == 2 * |a|
    decreases bot
  {
    if bot == top then seq(2 * |a|, _ => None) else Put(Grown(a, bot - 1, top), bot - 1, Get(a, bot - 1))
  }

  /** Growing keeps every live entry at its own index, however the two rings wrap around. */
  lemma {:induction false} GrownKeepsEntries(a: seq<Slot>, bot: nat, top: nat, i: nat)
    requires a != [] && top <= i < bot && bot - top <= 2 * |a|
    ensures Get(Grown(a, bot, top), i) == Get(a, i)
  {
    if i < bot - 1 {
      GrownKeepsEntries(a, bot - 1, top, i);
      NearbyIndicesDiffer(i, bot - 1, 2 * |a|);
    }
  }

  class CircularArray {
    const log2Cap: nat
    const buf: array<Slot>

    ghost predicate Valid() {
      buf.Length == Pow2(log2Cap)
    }

    constructor (log2Cap: nat)
      ensures Valid() && this.log2Cap == log2Cap && fresh(buf)
      ensures buf[..] == seq(Pow2(log2Cap), _ => None)
    {
      this.log2Cap := log2Cap;
      buf := new Slot[Pow2(log2Cap)](_ => None);
    }

    method PutAt(i: nat, p: Slot)
      requires Valid()
      modifies buf
      ensures buf[..] == Put(old(buf[..]), i, p)
    {
      buf[i % buf.Length] := p;
    }

    method GetAt(i: nat) returns (p: Slot)
      requires Valid()
      ensures p == Get(buf[..], i)
    {
      p := buf[i % buf.Length];
    }

    /** Copies the live entries `[top, bot)` into a fresh ring of twice the capacity. */
    method Grow(bot: nat, top: nat) returns (next: CircularArray)
      requires Valid() && top <= bot && bot - top <= buf.Length
      ensures fresh(next) && fresh(next.buf) && next.Valid() && next.log2Cap == log2Cap + 1
      ensures next.buf[..] == Grown(buf[..], bot, top)
      ensures forall i | top <= i < bot :: Get(next.buf[..], i) == Get(buf[..], i)
    {
      next := new CircularArray(log2Cap + 1);
      var i := top;
      while i < bot
        invariant top <= i <= bot
        invariant next.buf[..] == Grown(buf[..], i, top)
      {
        var p := GetAt(i);
        next.PutAt(i, p);
        i := i + 1;
      }
      forall i | top <= i < bot
        ensures Get(next.buf[..], i) == Get(buf[..], i)
      {
        GrownKeepsEntries(buf[..], bot, top, i);
      }
    }
  }
}
