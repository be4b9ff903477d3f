/**
 * Composite register fields as binary numbers.
 *
 * A get_* function of the driver assembles a composite field (FIFO count, watermark, range,
 * data rate, threshold, …) by adding up its one-bit fields, each shifted to its place, the
 * most significant field first. A set_* function splits the composite back into one-bit
 * fields, each the composite shifted down and cut to its lowest bit. `Weight` is the first
 * operation on any number of fields, `Digits` the second, and the two lemmas at the end of
 * this module prove them inverse to each other.
 */
module Fields {
  /** 2 to the power k. */
  function Pow2(k: nat): (p: nat)
    ensures p >= 1
  {
    if k == 0 then 1 else 2 * Pow2(k - 1)
  }

  /** The lowest bit of a field, as a number: what `(field & 0x1)` contributes. */
  function Bit(b: bv8): (d: nat)
    ensures d <= 1
  {
    if b & 1 == 1 then 1 else 0
  }

  /** A sequence of fields, each 0 or 1. */
  predicate Binary(fields: seq<bv8>) {
    fields == [] || (Binary(fields[..|fields| - 1]) && fields[|fields| - 1] <= 1)
  }

  /**
   * The number that fields spell, most significant first: the sum of each field's lowest bit
   * shifted left by its distance from the end. It always fits in as many bits as there are fields.
   */
  function Weight(fields: seq<bv8>): (n: nat)
    ensures n < Pow2(|fields|)
  {
    if fields == [] then 0
    else 2 * Weight(fields[..|fields| - 1]) + Bit(fields[|fields| - 1])
  }

  /** The low k bits of n as k one-bit fields, most significant first. */
  function Digits(n: nat, k: nat): (fields: seq<bv8>)
    ensures |fields| == k
    ensures Binary(fields)
  {
    if k == 0 then []
    else
      var high := Digits(n / 2, k - 1);
      var fields := high + [if n % 2 == 1 then 1 else 0];
      assert fields[..k - 1] == high;
      fields
  }

  /** Splitting a number that fits in k bits and assembling the fields again gives the number back. */
  lemma {:induction false} WeightOfDigits(n: nat, k: nat)
    requires n < Pow2(k)
    ensures Weight(Digits(n, k)) == n
  {
    if k > 0 {
      WeightOfDigits(n / 2, k - 1);
      assert Digits(n, k)[..k - 1] == Digits(n / 2, k - 1);
    }
  }

  /** Assembling 0/1 fields and splitting the number again gives the fields back. */
  lemma {:induction false} DigitsOfWeight(fields: seq<bv8>)
    requires Binary(fields)
    ensures Digits(Weight(fields), |fields|) == fields
  {
    if fields != [] {
      var k := |fields|;
      var high, low := fields[..k - 1], fields[k - 1];
      DigitsOfWeight(high);
      LastDigit(Weight(high), low);
      assert fields == high + [low];
    }
  }

  /** Appending a 0/1 field doubles the number and adds the field; halving undoes it. */
  lemma LastDigit(w: nat, b: bv8)
    requires b <= 1
    ensures (2 * w + Bit(b)) / 2 == w
    ensures (if (2 * w + Bit(b)) % 2 == 1 then 1 else 0) == b
  {
  }

  // Fixed-length instances, for the registers' own field lists.

  lemma Binary1(a: bv8)
    requires a <= 1
    ensures Binary([a])
  {
    assert [a][..0] == [];
  }

  lemma Binary2(a: bv8, b: bv8)
    requires a <= 1 && b <= 1
    ensures Binary([a, b])
  {
    assert [a, b][..1] == [a];
    Binary1(a);
  }

  lemma Binary3(a: bv8, b: bv8, c: bv8)
    requires a <= 1 && b <= 1 && c <= 1
    ensures Binary([a, b, c])
  {
    assert [a, b, c][..2] == [a, b];
    Binary2(a, b);
  }

  lemma Binary4(a: bv8, b: bv8, c: bv8, d: bv8)
    requires a <= 1 && b <= 1 && c <= 1 && d <= 1
    ensures Binary([a, b, c, d])
  {
    assert [a, b, c, d][..3] == [a, b, c];
    Binary3(a, b, c);
  }

  lemma Binary5(a: bv8, b: bv8, c: bv8, d: bv8, e: bv8)
    requires a <= 1 && b <= 1 && c <= 1 && d <= 1 && e <= 1
    ensures Binary([a, b, c, d, e])
  {
    assert [a, b, c, d, e][..4] == [a, b, c, d];
    Binary4(a, b, c, d);
  }

  lemma Binary6(a: bv8, b: bv8, c: bv8, d: bv8, e: bv8, f: bv8)
    requires a <= 1 && b <= 1 && c <= 1 && d <= 1 && e <= 1 && f <= 1
    ensures Binary([a, b, c, d, e, f])
  {
    assert [a, b, c, d, e, f][..5] == [a, b, c, d, e];
    Binary5(a, b, c, d, e);
  }

  lemma Binary7(a: bv8, b: bv8, c: bv8, d: bv8, e: bv8, f: bv8, g: bv8)
    requires a <= 1 && b <= 1 && c <= 1 && d <= 1 && e <= 1 && f <= 1 && g <= 1
    ensures Binary([a, b, c, d, e, f, g])
  {
    assert [a, b, c, d, e, f, g][..6] == [a, b, c, d, e, f];
    Binary6(a, b, c, d, e, f);
  }

  lemma WeightOf1(a: bv8)
    ensures Weight([a]) == Bit(a)
  {
    assert [a][..0] == [];
  }

  lemma WeightOf2(a: bv8, b: bv8)
    ensures Weight([a, b]) == 2 * Bit(a) + Bit(b)
  {
    assert [a, b][..1] == [a];
    WeightOf1(a);
  }

  lemma WeightOf3(a: bv8, b: bv8, c: bv8)
    ensures Weight([a, b, c]) == 4 * Bit(a) + 2 * Bit(b) + Bit(c)
  {
    assert [a, b, c][..2] == [a, b];
    WeightOf2(a, b);
  }

  lemma WeightOf4(a: bv8, b: bv8, c: bv8, d: bv8)
    ensures Weight([a, b, c, d]) == 8 * Bit(a) + 4 * Bit(b) + 2 * Bit(c) + Bit(d)
  {
    assert [a, b, c, d][..3] == [a, b, c];
    WeightOf3(a, b, c);
  }

  lemma WeightOf5(a: bv8, b: bv8, c: bv8, d: bv8, e: bv8)
    ensures Weight([a, b, c, d, e]) == 16 * Bit(a) + 8 * Bit(b) + 4 * Bit(c) + 2 * Bit(d) + Bit(e)
  {
    assert [a, b, c, d, e][..4] == [a, b, c, d];
    WeightOf4(a, b, c, d);
  }

  lemma WeightOf6(a: bv8, b: bv8, c: bv8, d: bv8, e: bv8, f: bv8)
    ensures Weight([a, b, c, d, e, f]) == 32 * Bit(a) + 16 * Bit(b) + 8 * Bit(c) + 4 * Bit(d) + 2 * Bit(e) + Bit(f)
  {
    assert [a, b, c, d, e, f][..5] == [a, b, c, d, e];
    WeightOf5(a, b, c, d, e);
  }

  lemma WeightOf7(a: bv8, b: bv8, c: bv8, d: bv8, e: bv8, f: bv8, g: bv8)
    ensures Weight([a, b, c, d, e, f, g]) == 64 * Bit(a) + 32 * Bit(b) + 16 * Bit(c) + 8 * Bit(d) + 4 * Bit(e) + 2 * Bit(f) + Bit(g)
  {
    assert [a, b, c, d, e, f, g][..6] == [a, b, c, d, e, f];
    WeightOf6(a, b, c, d, e, f);
  }
}
