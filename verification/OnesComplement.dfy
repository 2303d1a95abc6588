/** Ones'-complement arithmetic of the Internet checksum, on 16-bit words in network order (RFC 1071;
    section 3 of RFC 1624), and the 32-bit accumulators the kernel keeps it in. */
module OnesComplement {
  import opened Basics
  import opened RelayTypes

  const M: int := 65535

  /** Equal as ones'-complement numbers: apart by a multiple of 65535. */
  predicate Same(a: int, b: int) {
    (a - b) % M == 0
  }

  lemma SameAdds(a: int, b: int, c: int, d: int)
    requires Same(a, b) && Same(c, d)
    ensures Same(a + c, b + d) && Same(a - c, b - d)
  {
  }

  lemma SameSelf(a: int)
    ensures Same(a, a)
  {
  }

  lemma SameChain(a: int, b: int, c: int)
    requires Same(a, b) && Same(b, c)
    ensures Same(a, c) && Same(b, a)
  {
  }

  // ---- the sum of a byte string ----

  function Word(hi: byte, lo: byte): (w: nat)
    ensures w <= 65535
  {
    256 * hi + lo
  }

  /** The sum of the 16-bit words of `b`; an odd byte at the end is padded with zero. */
  function Sum(b: seq<byte>): nat {
    if b == [] then 0
    else if |b| == 1 then Word(b[0], 0)
    else Word(b[0], b[1]) + Sum(b[2..])
  }

  lemma {:induction false} SumConcat(a: seq<byte>, b: seq<byte>)
    requires |a| % 2 == 0
    ensures Sum(a + b) == Sum(a) + Sum(b)
  {
    if a == [] {
      assert a + b == b;
    } else {
      assert (a + b)[2..] == a[2..] + b;
      SumConcat(a[2..], b);
    }
  }

  lemma SumWord(b: seq<byte>)
    requires |b| == 2
    ensures Sum(b) == Word(b[0], b[1])
  {
    assert b[2..] == [];
  }

  lemma {:induction false} SumBound(b: seq<byte>)
    requires |b| % 2 == 0
    ensures Sum(b) <= |b| / 2 * 65535
  {
    if b != [] {
      SumBound(b[2..]);
    }
  }

  // ---- folding ----

  /** One fold of a 32-bit accumulator. */
  function Fold(s: nat): nat {
    s % 65536 + s / 65536
  }

  lemma FoldSame(s: nat)
    ensures Same(Fold(s), s)
    ensures s > 0 ==> Fold(s) > 0
  {
    assert s - Fold(s) == 65535 * (s / 65536);
  }

  /** Two folds bring any 32-bit accumulator below 2^16. */
  lemma TwoFolds(s: nat)
    requires s < TWO_32
    ensures Fold(Fold(s)) <= 65535 && Same(Fold(Fold(s)), s) && (s > 0 ==> Fold(Fold(s)) > 0)
  {
    FoldSame(s);
    FoldSame(Fold(s));
    SameChain(Fold(Fold(s)), Fold(s), s);
  }

  /** The sum folded until it fits: what a receiver compares with 0xffff. */
  function Folded(s: nat): (f: nat)
    ensures f <= 65535
  {
    if s <= 65535 then s else Folded(Fold(s))
  }

  lemma {:induction false} FoldedSame(s: nat)
    ensures Same(Folded(s), s) && (s > 0 ==> Folded(s) > 0)
    decreases s
  {
    if s > 65535 {
      FoldSame(s);
      FoldedSame(Fold(s));
      SameChain(Folded(s), Fold(s), s);
    }
  }

  /** A receiver accepts exactly the nonzero multiples of 65535. */
  lemma AcceptsIff(s: nat)
    ensures Folded(s) == 0xffff <==> s > 0 && Same(s, 0)
  {
    hide Folded, Same;
    FoldedSame(s);
    var f := Folded(s);
    OnlyFull(f);
    if Same(s, 0) {
      SameChain(f, s, 0);
    }
    if Same(f, 0) {
      SameChain(f, s, s);
      SameChain(s, f, 0);
    }
    if s == 0 {
      FoldedZero();
    }
  }

  lemma OnlyFull(f: nat)
    requires f <= 65535
    ensures f == 65535 ==> Same(f, 0)
    ensures f > 0 && Same(f, 0) ==> f == 65535
  {
  }

  lemma FoldedZero()
    ensures Folded(0) == 0
  {
  }

  /** csum_fold: two folds and a complement. */
  function CsumFold(s: nat): (c: nat)
    requires s < TWO_32
    ensures c <= 65535
  {
    TwoFolds(s);
    65535 - Fold(Fold(s))
  }

  lemma CsumFoldSame(s: nat)
    requires s < TWO_32
    ensures Same(CsumFold(s), 0 - s)
  {
    TwoFolds(s);
  }

  // ---- 32-bit accumulators with end-around carry ----

  function AddCarry(a: nat, b: nat): (s: nat)
    requires a < TWO_32 && b < TWO_32
    ensures s < TWO_32
  {
    if a + b >= TWO_32 then a + b - TWO_32 + 1 else a + b
  }

  function Not32(a: nat): (s: nat)
    requires a < TWO_32
    ensures s < TWO_32
  {
    TWO_32 - 1 - a
  }

  lemma AddCarrySame(a: nat, b: nat)
    requires a < TWO_32 && b < TWO_32
    ensures Same(AddCarry(a, b), a + b)
  {
  }

  lemma Not32Same(a: nat)
    requires a < TWO_32
    ensures Same(Not32(a), 0 - a)
  {
    assert TWO_32 - 1 == 65535 * 65537;
  }

  function Word32(b: seq<byte>): (w: nat)
    requires |b| == 4
    ensures w < TWO_32
  {
    65536 * Word(b[0], b[1]) + Word(b[2], b[3])
  }

  lemma Word32Same(b: seq<byte>)
    requires |b| == 4
    ensures Same(Word32(b), Sum(b))
  {
    assert Sum(b) == Word(b[0], b[1]) + Sum(b[2..]);
    SumWord(b[2..]);
    assert Word32(b) - Sum(b) == 65535 * Word(b[0], b[1]);
  }

  // ---- bpf_csum_diff ----

  /** The accumulator after the 32-bit words of `b`, complemented or not, have been added to `d`. */
  function Accumulate(d: nat, b: seq<byte>, negate: bool): (s: nat)
    requires d < TWO_32 && |b| % 4 == 0
    ensures s < TWO_32
  {
    if b == [] then d else
    var n := |b| - 4;
    var w := Word32(b[n..]);
    AddCarry(Accumulate(d, b[..n], negate), if negate then Not32(w) else w)
  }

  function CsumDiff(from: seq<byte>, to: seq<byte>): (d: nat)
    requires |from| % 4 == 0 && |to| % 4 == 0
    ensures d < TWO_32
  {
    Accumulate(Accumulate(0, from, true), to, false)
  }

  lemma {:induction false} AccumulateSame(d: nat, b: seq<byte>, negate: bool)
    requires d < TWO_32 && |b| % 4 == 0
    ensures Same(Accumulate(d, b, negate), if negate then d - Sum(b) else d + Sum(b))
  {
    hide Same, Sum, AddCarry, Not32, Word32;
    if b == [] {
      SameSelf(d);
      EmptySum();
    } else {
      var n := |b| - 4;
      FourLess(|b|);
      AccumulateSame(d, b[..n], negate);
      AddedSame(Accumulate(d, b[..n], negate), if negate then d - Sum(b[..n]) else d + Sum(b[..n]), b[n..], negate);
      assert b == b[..n] + b[n..];
      SumConcat(b[..n], b[n..]);
    }
  }

  lemma FourLess(n: nat)
    requires n > 0 && n % 4 == 0
    ensures n >= 4 && (n - 4) % 4 == 0 && (n - 4) % 2 == 0
  {
    var k := n / 4 - 1;
    assert n - 4 == 4 * k;
    assert n - 4 == 2 * (2 * k);
  }

  lemma EmptySum()
    ensures Sum([]) == 0
  {
  }

  /** One more word. */
  lemma AddedSame(a: nat, v: int, b: seq<byte>, negate: bool)
    requires a < TWO_32 && |b| == 4 && Same(a, v)
    ensures var w := Word32(b);
            Same(AddCarry(a, if negate then Not32(w) else w), if negate then v - Sum(b) else v + Sum(b))
  {
    hide Same, Sum, AddCarry, Not32, Word32;
    var w := Word32(b);
    var x := if negate then Not32(w) else w;
    Word32Same(b);
    if negate {
      var u: int := w;
      Not32Same(w);
      SameSelf(0);
      SameAdds(0, 0, w, Sum(b));
      SameChain(x, 0 - u, 0 - Sum(b));
    }
    AddCarrySame(a, x);
    SameAdds(a, v, x, if negate then 0 - Sum(b) else Sum(b));
    SameChain(AddCarry(a, x), a + x, if negate then v - Sum(b) else v + Sum(b));
  }

  /** The difference is the change of the sum. */
  lemma {:induction false} CsumDiffSame(from: seq<byte>, to: seq<byte>)
    requires |from| % 4 == 0 && |to| % 4 == 0
    ensures Same(CsumDiff(from, to), Sum(to) - Sum(from))
  {
    hide Same, Sum, Accumulate;
    var half := Accumulate(0, from, true);
    AccumulateSame(0, from, true);
    AccumulateSame(half, to, false);
    SameSelf(Sum(to));
    SameAdds(half, 0 - Sum(from), Sum(to), Sum(to));
    SameChain(Accumulate(half, to, false), half + Sum(to), 0 - Sum(from) + Sum(to));
  }

  method ComputeCsumDiff(from: array<byte>, to: array<byte>) returns (d: nat)
    requires from.Length % 4 == 0 && to.Length % 4 == 0
    ensures d == CsumDiff(from[..], to[..])
    ensures d < TWO_32 && Same(d, Sum(to[..]) - Sum(from[..]))
  {
    hide Same, Sum, AddCarry, Not32, Word32;
    d := 0;
    var i := 0;
    while i < from.Length
      invariant 0 <= i <= from.Length && i % 4 == 0 && d < TWO_32
      invariant d == Accumulate(0, from[..i], true)
    {
      assert from[..i + 4][..i] == from[..i] && from[..i + 4][i..] == from[i..i + 4];
      d := AddCarry(d, Not32(Word32(from[i..i + 4])));
      i := i + 4;
    }
    assert from[..i] == from[..];
    ghost var half := d;
    i := 0;
    while i < to.Length
      invariant 0 <= i <= to.Length && i % 4 == 0 && d < TWO_32
      invariant d == Accumulate(half, to[..i], false)
    {
      assert to[..i + 4][..i] == to[..i] && to[..i + 4][i..] == to[i..i + 4];
      d := AddCarry(d, Word32(to[i..i + 4]));
      i := i + 4;
    }
    assert to[..i] == to[..];
    CsumDiffSame(from[..], to[..]);
  }

  // ---- bpf_l4_csum_replace ----

  /** The checksum field after a replacement by difference. A field left to the hardware to finish
      (`partial`) holds the plain pseudo-header sum, which only a pseudo-header change touches. */
  function ReplacedByDiff(field: nat, diff: nat, pseudo: bool, partial: bool): (f: nat)
    requires field <= 65535 && diff < TWO_32
    ensures f <= 65535
  {
    if !partial then CsumFold(AddCarry(diff, Not32(field)))
    else if pseudo then 65535 - CsumFold(AddCarry(diff, field))
    else field
  }

  /** The same for a 16-bit value that goes from `from` to `to`. */
  function Replaced2(field: nat, from: nat, to: nat, pseudo: bool, partial: bool): (f: nat)
    requires field <= 65535 && from <= 65535 && to <= 65535
    ensures f <= 65535
  {
    if !partial then CsumFold(AddCarry(AddCarry(Not32(field), Not32(from)), to))
    else if pseudo then 65535 - CsumFold(AddCarry(AddCarry(field, Not32(from)), to))
    else field
  }

  /** A complemented field moves against the data, so that field and data keep their sum (RFC 1624);
      a plain field moves with the pseudo-header. */
  lemma ReplacedByDiffSame(field: nat, diff: nat, pseudo: bool, partial: bool)
    requires field <= 65535 && diff < TWO_32
    ensures Same(ReplacedByDiff(field, diff, pseudo, partial),
                 if !partial then field - diff else if pseudo then field + diff else field)
  {
    hide Same, AddCarry, Not32, CsumFold;
    SameSelf(field);
    if !partial {
      SameSelf(diff);
      Not32Same(field);
      SameAdds(diff, diff, Not32(field), 0 - field);
      FoldedAway(diff, Not32(field), diff - field);
    } else if pseudo {
      SameSelf(diff + field);
      FoldedAway(diff, field, diff + field);
    }
  }

  /** What csum_fold makes of a sum, and the complement of that. */
  lemma FoldedAway(a: nat, b: nat, v: int)
    requires a < TWO_32 && b < TWO_32 && Same(a + b, v)
    ensures Same(CsumFold(AddCarry(a, b)), 0 - v) && Same(65535 - CsumFold(AddCarry(a, b)), v)
  {
    hide AddCarry, CsumFold;
    AddCarrySame(a, b);
    CsumFoldSame(AddCarry(a, b));
  }

  lemma Replaced2Same(field: nat, from: nat, to: nat, pseudo: bool, partial: bool)
    requires field <= 65535 && from <= 65535 && to <= 65535
    ensures Same(Replaced2(field, from, to, pseudo, partial),
                 if !partial then field + from - to else if pseudo then field - from + to else field)
  {
    hide Same, AddCarry, Not32, CsumFold;
    SameSelf(field);
    SameSelf(to);
    Not32Same(field);
    Not32Same(from);
    var x := if partial then field else Not32(field);
    var v: int := if partial then field else 0 - field;
    var a := AddCarry(x, Not32(from));
    AddCarrySame(x, Not32(from));
    SameAdds(x, v, Not32(from), 0 - from);
    SameChain(a, x + Not32(from), v - from);
    SameAdds(a, v - from, to, to);
    FoldedAway(a, to, v - from + to);
  }
}
