/** Arithmetic on wrapping 32-bit counters and power-of-two masks. */
module Wrap32 {
  import opened Basics

  function Pow2(k: nat): (p: nat)
    ensures p > 0
  {
    if k == 0 then 1 else 2 * Pow2(k - 1)
  }

  /** Bitwise and. */
  function And(x: nat, y: nat): nat
    decreases x
  {
    if x == 0 || y == 0 then 0 else (if x % 2 == 1 && y % 2 == 1 then 1 else 0) + 2 * And(x / 2, y / 2)
  }

  lemma HalveMod(x: nat, p: nat)
    requires p > 0
    ensures x % (2 * p) == x % 2 + 2 * ((x / 2) % p)
  {
    var h := x / 2;
    var q, r := h / p, h % p;
    assert h == q * p + r;
    assert x == q * (2 * p) + (2 * r + x % 2);
    DivMod(x, 2 * p, q, 2 * r + x % 2);
  }

  lemma AndNone(x: nat, m: nat)
    requires x == 0 || m == 0
    ensures And(x, m) == 0
  {
  }

  lemma AndOdd(x: nat, m: nat)
    requires x > 0
    ensures And(x, 2 * m + 1) == x % 2 + 2 * And(x / 2, m)
  {
    assert (2 * m + 1) / 2 == m && (2 * m + 1) % 2 == 1;
  }

  lemma Small(x: nat, p: nat)
    requires p == 1 || (x == 0 && p > 0)
    ensures x % p == 0
  {
  }

  /** The mask of a power of two takes the remainder. */
  lemma {:induction false} AndMask(x: nat, k: nat)
    ensures And(x, Pow2(k) - 1) == x % Pow2(k)
    decreases k
  {
    hide And;
    if k == 0 || x == 0 {
      AndNone(x, Pow2(k) - 1);
      Small(x, Pow2(k));
    } else {
      AndMask(x / 2, k - 1);
      Doubled(x, Pow2(k - 1));
    }
  }

  lemma Doubled(x: nat, p: nat)
    requires x > 0 && p > 0 && And(x / 2, p - 1) == (x / 2) % p
    ensures And(x, 2 * p - 1) == x % (2 * p)
  {
    hide And;
    HalveMod(x, p);
    AndOdd(x, p - 1);
    assert 2 * (p - 1) + 1 == 2 * p - 1;
  }

  lemma Regroup(q: nat, n: nat, m: nat, a: nat)
    ensures q * (n * m) + a * n == (q * m + a) * n
  {
    assert q * (n * m) == (q * m) * n;
  }

  /** Dropping multiples of a multiple of n does not change the remainder by n. */
  lemma ModOfMod(x: nat, n: nat, m: nat)
    requires n > 0 && m > 0 && n * m > 0
    ensures (x % (n * m)) % n == x % n
  {
    var q, r := x / (n * m), x % (n * m);
    var a, b := r / n, r % n;
    Regroup(q, n, m, a);
    DivMod(x, n, q * m + a, b);
  }

  lemma {:induction false} PowSplit(k: nat, l: nat)
    ensures Pow2(k + l) == Pow2(k) * Pow2(l)
    decreases k
  {
    if k > 0 {
      PowSplit(k - 1, l);
    }
  }

  lemma Pow32()
    ensures Pow2(32) == TWO_32
  {
    assert Pow2(4) == 16 by {
      assert Pow2(2) == 4;
    }
    hide Pow2;
    PowSplit(4, 4);
    PowSplit(8, 8);
    PowSplit(16, 16);
  }

  /** The place of counter value `i` in a ring of `n` places. */
  function Slot(i: nat, n: nat): (s: nat)
    requires n > 0
    ensures s < n
  {
    i % n
  }

  function Wrap(x: int): (r: nat)
    ensures r < TWO_32
  {
    x % TWO_32
  }

  lemma Below32(k: nat)
    requires k < 32
    ensures Pow2(k) < TWO_32
  {
    if k < 31 {
      Grows(k, 31);
    }
    Pow32();
    assert Pow2(32) == 2 * Pow2(31);
  }

  lemma {:induction false} Grows(k: nat, l: nat)
    requires k <= l
    ensures Pow2(k) <= Pow2(l)
  {
    if k < l {
      Grows(k, l - 1);
    }
  }

  /** Masking the wrapped counter gives the place of the counter. */
  lemma SlotOf(x: nat, k: nat)
    requires k < 32
    ensures And(Wrap(x), Pow2(k) - 1) == Slot(x, Pow2(k))
  {
    AndMask(x % TWO_32, k);
    PowSplit(k, 32 - k);
    Pow32();
    ModOfMod(x, Pow2(k), Pow2(32 - k));
  }

  /** The wrapped difference of two wrapped counters is their distance, as long as that is below 2^32. */
  lemma Distance(a: nat, b: nat)
    requires b <= a < b + TWO_32
    ensures Wrap(Wrap(a) - Wrap(b)) == a - b
  {
  }

  lemma Next(a: nat, n: nat)
    ensures Wrap(Wrap(a) + n) == Wrap(a + n)
  {
  }

  /** Counters less than n apart have different slots. */
  lemma SlotsDiffer(a: nat, b: nat, n: nat)
    requires n > 0 && a < b < a + n
    ensures Slot(a, n) != Slot(b, n)
  {
    if a % n == b % n {
      var p, q := a / n, b / n;
      assert a == p * n + a % n && b == q * n + b % n;
      if q < p {
        MulLess(n, q, p);
      } else if p < q {
        MulLess(n, p, q);
      }
    }
  }

  // ---- a stretch of a ring ----

  /** The places of counter values from `from` up to `to`, in order. */
  function Window<T>(a: seq<T>, from: nat, to: nat): (w: seq<T>)
    requires |a| > 0 && from <= to
    ensures |w| == to - from
  {
    seq(to - from, i requires 0 <= i < to - from => a[Slot(from + i, |a|)])
  }

  /** Writing the next place appends, as long as the ring is not full. */
  lemma WindowPush<T>(a: seq<T>, from: nat, to: nat, x: T)
    requires |a| > 0 && from <= to < from + |a|
    ensures Window(a[Slot(to, |a|) := x], from, to + 1) == Window(a, from, to) + [x]
  {
    hide Slot;
    var b := a[Slot(to, |a|) := x];
    var v, w := Window(a, from, to), Window(b, from, to + 1);
    forall i | 0 <= i < to - from ensures w[i] == v[i] {
      SlotsDiffer(from + i, to, |a|);
    }
    assert from + (to - from) == to;
    assert w[to - from] == x;
  }

  /** Writing the last place again replaces the last entry. */
  lemma WindowSet<T>(a: seq<T>, from: nat, to: nat, x: T)
    requires |a| > 0 && from < to <= from + |a|
    ensures Window(a[Slot(to - 1, |a|) := x], from, to) == Window(a, from, to)[to - from - 1 := x]
  {
    hide Slot;
    var b := a[Slot(to - 1, |a|) := x];
    var v, w := Window(a, from, to), Window(b, from, to);
    forall i | 0 <= i < to - from - 1 ensures w[i] == v[i] {
      SlotsDiffer(from + i, to - 1, |a|);
    }
    assert from + (to - from - 1) == to - 1;
    assert w[to - from - 1] == x;
  }

  lemma WindowDrop<T>(a: seq<T>, from: nat, to: nat, n: nat)
    requires |a| > 0 && from + n <= to
    ensures Window(a, from + n, to) == Window(a, from, to)[n..]
  {
    hide Slot;
    forall i | 0 <= i < to - from - n ensures Window(a, from + n, to)[i] == Window(a, from, to)[n..][i] {
      assert from + n + i == from + (n + i);
    }
  }
}
