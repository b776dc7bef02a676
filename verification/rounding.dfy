/** Rounding of money amounts to the nearest tenth of a currency unit.

    The source rounds with `Math.round(x * 10) / 10`. `Math.round` rounds half
    toward positive infinity, which on exact reals is `Floor(x + 1/2)`. */
module Rounding {

  /** `x` is a whole number of tenths. */
  predicate OnGrid(x: real) {
    (x * 10.0).Floor as real == x * 10.0
  }

  /** `Math.round(x * 10) / 10`: the nearest tenth, ties rounded up. */
  function RoundTenth(x: real): (r: real)
    ensures OnGrid(r)
    ensures x - 0.05 < r <= x + 0.05
  {
    var k := (x * 10.0 + 0.5).Floor;
    assert k as real <= x * 10.0 + 0.5 < k as real + 1.0;
    assert (k as real / 10.0) * 10.0 == k as real;
    k as real / 10.0
  }

  /** The two postconditions of RoundTenth determine its result: the only
      tenth in the half-open window (x - 0.05, x + 0.05] is RoundTenth(x). */
  lemma {:induction false} RoundTenthUnique(x: real, r: real)
    requires OnGrid(r)
    requires x - 0.05 < r <= x + 0.05
    ensures r == RoundTenth(x)
  {
    var m := (r * 10.0).Floor;
    assert m as real == r * 10.0;
    assert m as real <= x * 10.0 + 0.5 < m as real + 1.0;
    assert (x * 10.0 + 0.5).Floor == m;
  }

  /** Rounding an amount that is already a whole number of tenths changes nothing. */
  lemma {:induction false} RoundTenthOnGrid(x: real)
    requires OnGrid(x)
    ensures RoundTenth(x) == x
  {
    RoundTenthUnique(x, x);
  }

  /** Rounding is idempotent. */
  lemma {:induction false} RoundTenthIdempotent(x: real)
    ensures RoundTenth(RoundTenth(x)) == RoundTenth(x)
  {
    RoundTenthOnGrid(RoundTenth(x));
  }

  lemma {:induction false} OnGridAdd(x: real, y: real)
    requires OnGrid(x) && OnGrid(y)
    ensures OnGrid(x + y) && OnGrid(x - y)
  {
    var a, b := (x * 10.0).Floor, (y * 10.0).Floor;
    assert (x + y) * 10.0 == (a + b) as real;
    assert (x - y) * 10.0 == (a - b) as real;
    FloorOfInt(a + b);
    FloorOfInt(a - b);
  }

  lemma {:induction false} FloorOfInt(k: int)
    ensures (k as real).Floor == k
  {
  }

  /** A whole number of tenths strictly between 0 and 0.2 is 0.1. */
  lemma {:induction false} OnGridSmallPositive(d: real)
    requires OnGrid(d) && 0.0 < d < 0.2
    ensures d == 0.1
  {
    var m := (d * 10.0).Floor;
    assert m as real == d * 10.0;
    assert 0 < m < 2;
  }
}
