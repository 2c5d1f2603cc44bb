/**
 * Python's `round(x, 2)`, as used on every score and confidence the analyzer
 * reports, taken over exact reals with halves rounded up.
 */
module Rounding {

  /** `x` has at most two decimal places. */
  predicate Cents(x: real) {
    (x * 100.0).Floor as real == x * 100.0
  }

  /** `round(x, 2)`: the nearest multiple of 0.01, a half rounded up. */
  function Round2(x: real): (r: real)
    ensures Cents(r)
    ensures x - 0.005 < r <= x + 0.005
  {
    var n := (x * 100.0 + 0.5).Floor;
    assert (n as real / 100.0) * 100.0 == n as real;
    n as real / 100.0
  }

  /** Rounding leaves a two-decimal value as it is. */
  lemma Round2Fixed(x: real)
    requires Cents(x)
    ensures Round2(x) == x
  {
    var n := (x * 100.0).Floor;
    assert (x * 100.0 + 0.5).Floor == n;
  }

  /** Rounding never reverses the order of two values. */
  lemma Round2Monotone(x: real, y: real)
    requires x <= y
    ensures Round2(x) <= Round2(y)
  {
    assert (x * 100.0 + 0.5).Floor <= (y * 100.0 + 0.5).Floor;
  }

  /** A value between two two-decimal bounds is still between them after rounding. */
  lemma Round2Within(lo: real, x: real, hi: real)
    requires Cents(lo) && Cents(hi) && lo <= x <= hi
    ensures lo <= Round2(x) <= hi
  {
    Round2Monotone(lo, x);
    Round2Monotone(x, hi);
    Round2Fixed(lo);
    Round2Fixed(hi);
  }

  /** Two-decimal values are closed under addition. */
  lemma CentsAdd(x: real, y: real)
    requires Cents(x) && Cents(y)
    ensures Cents(x + y)
  {
    var n, m := (x * 100.0).Floor, (y * 100.0).Floor;
    assert (x + y) * 100.0 == (n + m) as real;
  }
}
