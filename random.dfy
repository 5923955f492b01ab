/** The random source as an oracle. The k-th draw of any kind (counting from 0)
    is determined by `seek(k)` or `of(k)`, and every draw advances the counter,
    so a caller's contract can name exactly which values it used. */
module Randomness {
  import opened Configuration

  class Random {
    /** The value a Seek draw returns at each position. */
    const seek: nat -> real
    /** The raw integer an integer draw reduces at each position. */
    const of: nat -> int
    /** How many draws have been taken so far. */
    var calls: nat

    constructor (seek: nat -> real, of: nat -> int)
      ensures this.seek == seek && this.of == of && calls == 0
    {
      this.seek := seek;
      this.of := of;
      calls := 0;
    }

    /** Every Seek draw is a fraction in [0, 1), as the standard generator promises. */
    ghost predicate Fractional()
    {
      forall k :: 0.0 <= seek(k) < 1.0
    }

    /** A uniform fraction. */
    method Seek() returns (x: real)
      modifies this
      ensures x == seek(old(calls))
      ensures calls == old(calls) + 1
    {
      x := seek(calls);
      calls := calls + 1;
    }

    /** A value in [0, n); the standard generator panics for n <= 0. */
    method Of(n: int) returns (k: int)
      requires n > 0
      modifies this
      ensures k == of(old(calls)) % n
      ensures 0 <= k < n
      ensures calls == old(calls) + 1
    {
      k := of(calls) % n;
      calls := calls + 1;
    }

    /** A value in [min, max); an empty range yields min, as the deterministic test source does. */
    method OfRange(min: int, max: int) returns (k: int)
      modifies this
      ensures k == Pick(of(old(calls)), IntRange(min, max))
      ensures min < max ==> min <= k < max
      ensures calls == old(calls) + 1
    {
      k := Pick(of(calls), IntRange(min, max));
      calls := calls + 1;
    }

    /** OfRange over a configured range. */
    method OfIntRange(r: IntRange) returns (k: int)
      modifies this
      ensures k == Pick(of(old(calls)), r)
      ensures r.Min < r.Max ==> r.Min <= k < r.Max
      ensures calls == old(calls) + 1
    {
      k := OfRange(r.Min, r.Max);
    }
  }

  /** The value a raw draw selects from a range: its offset in the range, or the
      lower bound when the range is empty. */
  function Pick(raw: int, r: IntRange): (k: int)
    ensures r.Min < r.Max ==> r.Min <= k < r.Max
    ensures r.Max <= r.Min ==> k == r.Min
    ensures r.Min < r.Max && 0 <= raw < r.Max - r.Min ==> k == r.Min + raw
  {
    if r.Max <= r.Min then r.Min else r.Min + raw % (r.Max - r.Min)
  }
}
