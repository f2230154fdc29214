/** Powers of two, masking and remainders: what selecting a slot of a ring by its index comes to. */
module Arithmetic {
  function Pow2(k: nat): (p: nat)
    ensures p >= 1
  {
    if k == 0 then 1 else 2 * Pow2(k - 1)
  }

  /** Bitwise conjunction of two non-negative integers, bit by bit. */
  function BitAnd(x: nat, y: nat): nat {
    if x == 0 then 0 else (if x % 2 == 1 && y % 2 == 1 then 1 else 0) + 2 * BitAnd(x / 2, y / 2)
  }

  /** Masking with `capacity - 1` is reduction modulo a power-of-two capacity. */
  lemma {:induction false} MaskIsModulo(x: nat, k: nat)
    ensures BitAnd(x, Pow2(k) - 1) == x % Pow2(k)
    decreases k
  {
    if k == 0 {
      AndZero(x);
    } else {
      MaskIsModulo(x / 2, k - 1);
      MaskDoubles(x, Pow2(k - 1), Pow2(k));
    }
  }

  lemma MaskDoubles(x: nat, h: nat, d: nat)
    requires h >= 1 && d == 2 * h
    requires BitAnd(x / 2, h - 1) == (x / 2) % h
    ensures BitAnd(x, d - 1) == x % d
  {
    var y := d - 1;
    assert y / 2 == h - 1 && y % 2 == 1;
    assert BitAnd(x, y) == x % 2 + 2 * BitAnd(x / 2, y / 2);
    HalvedModulo(x, h);
  }

  lemma {:induction false} AndZero(x: nat)
    ensures BitAnd(x, 0) == 0
  {
    if x != 0 {
      AndZero(x / 2);
    }
  }

  lemma HalvedModulo(x: nat, h: nat)
    requires h >= 1
    ensures x % (2 * h) == x % 2 + 2 * ((x / 2) % h)
  {
    var q := (x / 2) / h;
    var r := x % 2 + 2 * ((x / 2) % h);
    assert x / 2 == h * q + (x / 2) % h;
    assert x == (2 * h) * q + r by {
      assert 2 * (h * q) == (2 * h) * q;
    }
    ModuloUnique(x, 2 * h, q, r);
  }

  lemma ModuloUnique(x: int, d: int, q: int, r: int)
    requires d > 0 && x == d * q + r && 0 <= r < d
    ensures x % d == r
  {
    var q', r' := x / d, x % d;
    MultipleIsSmall(d, q - q', r' - r);
  }

  /** The only multiple of `d` closer to zero than `d` is zero. */
  lemma MultipleIsSmall(d: int, k: int, m: int)
    requires d > 0 && -d < m < d && m == d * k
    ensures k == 0 && m == 0
  {
    if k >= 1 {
      MulAtLeast(d, k);
    } else if k <= -1 {
      MulAtLeast(d, -k);
    }
  }

  lemma MulAtLeast(d: int, k: int)
    requires d > 0 && k >= 1
    ensures d * k >= d
  {
    if k > 1 {
      MulAtLeast(d, k - 1);
    }
  }

  /** Two indices closer than the capacity never share a slot. */
  lemma NearbyIndicesDiffer(i: int, j: int, cap: int)
    requires 0 <= i < j < i + cap
    ensures i % cap != j % cap
  {
    var d := j / cap - i / cap;
    assert j % cap - i % cap == (j - i) - cap * d;
    if d >= 1 {
      MulAtLeast(cap, d);
    } else if d <= -1 {
      MulAtLeast(cap, -d);
    }
  }
}
