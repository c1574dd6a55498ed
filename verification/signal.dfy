/**
 Single-bit signal values of the simulator and the conversions between
 them and integers that the components use.

 A `Value` is one of four tags. The simulator hands out one shared object
 per single-bit value, so comparing two of them by reference is the same as
 comparing their tags; the model compares tags.
 */
module Signal {

  datatype Value = TRUE | FALSE | UNKNOWN | ERROR

  /** A value the simulator considers driven: TRUE or FALSE. */
  predicate IsKnown(v: Value) {
    v == TRUE || v == FALSE
  }

  /** Arithmetic reading of a signal: only TRUE counts as 1. */
  function ToBit(v: Value): nat {
    if v == TRUE then 1 else 0
  }

  /** The known value carrying a boolean. */
  function FromBool(b: bool): (v: Value)
    ensures IsKnown(v)
    ensures v == TRUE <==> b
  {
    if b then TRUE else FALSE
  }

  function Pow2(n: nat): (p: nat)
    ensures p >= 1
  {
    if n == 0 then 1 else 2 * Pow2(n - 1)
  }

  /**
   The `w` bits of `v`, least significant first, each TRUE or FALSE.
   Bit `i` is `(v >> i) & 1` with an arithmetic shift, which is what
   Dafny's floor division by 2 computes for negative `v` as well.
   */
  function CreateKnown(v: int, w: nat): (bits: seq<Value>)
    ensures |bits| == w
    ensures forall i :: 0 <= i < w ==> IsKnown(bits[i])
    decreases w
  {
    if w == 0 then [] else [FromBool(v % 2 == 1)] + CreateKnown(v / 2, w - 1)
  }

  /** The unsigned number a little-endian sequence of signals spells out. */
  function BitsValue(bits: seq<Value>): (n: nat)
    ensures n < Pow2(|bits|)
  {
    if |bits| == 0 then 0 else ToBit(bits[0]) + 2 * BitsValue(bits[1..])
  }

  /** Splitting a number that fits in `w` bits and reading the bits back gives the number. */
  lemma {:induction false} CreateKnownRoundTrip(v: int, w: nat)
    requires 0 <= v < Pow2(w)
    ensures BitsValue(CreateKnown(v, w)) == v
  {
    if w > 0 {
      var bits := CreateKnown(v, w);
      assert bits[1..] == CreateKnown(v / 2, w - 1);
      CreateKnownRoundTrip(v / 2, w - 1);
      assert ToBit(bits[0]) == v % 2;
    }
  }

  /** Bit `i` of `CreateKnown(v, w)` is bit `i` of `v`, that is `(v / 2^i) % 2`. */
  lemma {:induction false} CreateKnownBit(v: int, w: nat, i: nat)
    requires i < w
    ensures CreateKnown(v, w)[i] == FromBool((v / Pow2(i)) % 2 == 1)
    decreases i
  {
    if i > 0 {
      CreateKnownBit(v / 2, w - 1, i - 1);
      DivTwice(v, Pow2(i - 1));
    }
  }

  /** Halving and then dividing by `d` is dividing by `2 * d`. */
  lemma DivTwice(v: int, d: nat)
    requires d >= 1
    ensures v / 2 / d == v / (2 * d)
  {
    var q := v / 2 / d;
    var r2 := (v / 2) % d;
    var r1 := v % 2;
    assert v / 2 == d * q + r2;
    assert v == 2 * (v / 2) + r1;
    assert v == (2 * d) * q + (2 * r2 + r1) by {
      assert 2 * (d * q + r2) == (2 * d) * q + 2 * r2;
    }
    DivUnique(v, 2 * d, q, 2 * r2 + r1);
  }

  /** Euclidean division is determined by quotient and remainder. */
  lemma DivUnique(v: int, m: int, q: int, r: int)
    requires m > 0 && 0 <= r < m && v == m * q + r
    ensures v / m == q
  {
    var q' := v / m;
    var r' := v % m;
    assert m * q' + r' == m * q + r;
    assert 0 <= r' < m;
    if q < q' {
      MulDistinct(m, q, q');
    } else if q' < q {
      MulDistinct(m, q', q);
    }
  }

  /** Multiples of `m` at different indices are at least `m` apart. */
  lemma MulDistinct(m: int, a: int, b: int)
    requires m > 0 && a < b
    ensures m * b - m * a >= m
  {
    assert m * b - m * a == m * (b - a);
    MulAtLeast(m, b - a);
  }

  /** A positive multiple of `m` is at least `m`. */
  lemma {:induction false} MulAtLeast(m: int, k: int)
    requires m > 0 && k >= 1
    ensures m * k >= m
    decreases k
  {
    if k > 1 {
      MulAtLeast(m, k - 1);
      assert m * k == m * (k - 1) + m;
    }
  }
}
