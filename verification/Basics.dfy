/** What several modules need: an optional value, 32-bit words, and division. */
module Basics {
  const TWO_32: nat := 0x1_0000_0000

  datatype Option<T> = None | Some(value: T)

  function B2N(b: bool): nat {
    if b then 1 else 0
  }

  lemma {:induction false} MulLess(t: nat, a: nat, b: nat)
    requires a < b
    ensures t * a + t <= t * b
    decreases b
  {
    assert t * b == t * (b - 1) + t;
    if a < b - 1 {
      MulLess(t, a, b - 1);
    }
  }

  lemma DivMod(x: nat, n: nat, q: nat, r: nat)
    requires r < n && x == n * q + r
    ensures x / n == q && x % n == r
  {
    var q' := x / n;
    assert x == n * q' + x % n;
    if q' < q {
      MulLess(n, q', q);
    } else if q < q' {
      MulLess(n, q, q');
    }
  }
}
