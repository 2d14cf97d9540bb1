/** Python and NumPy numeric primitives used by the optimizer, over exact reals.
    Floating-point rounding is not modelled: every value is a mathematical real. */
module Numeric {

  /** A closed interval `[lo, hi]`, one entry of the optimizer's `bounds` list. */
  datatype Bound = Bound(lo: real, hi: real)

  predicate InBound(x: real, b: Bound) {
    b.lo <= x <= b.hi
  }

  /** Python 3 `round(x)` with no digits argument: the nearest integer, ties to the even one. */
  function RoundHalfEven(x: real): (n: int)
    ensures -0.5 <= x - n as real <= 0.5
    ensures x - n as real == 0.5 || x - n as real == -0.5 ==> n % 2 == 0
  {
    var fl := x.Floor;
    var frac := x - fl as real;
    if frac < 0.5 then fl
    else if frac > 0.5 then fl + 1
    else if fl % 2 == 0 then fl
    else fl + 1
  }

  /** The two conditions above single out one integer, so they are a full specification of `round`. */
  lemma RoundHalfEvenUnique(x: real, m: int)
    requires -0.5 <= x - m as real <= 0.5
    requires x - m as real == 0.5 || x - m as real == -0.5 ==> m % 2 == 0
    ensures m == RoundHalfEven(x)
  {
  }

  /** Rounding an integer-valued real gives that integer back. */
  lemma RoundOfInteger(k: int)
    ensures RoundHalfEven(k as real) == k
  {
    RoundHalfEvenUnique(k as real, k);
  }

  /** Python's `abs` on a float. */
  function Abs(x: real): (r: real)
    ensures r >= 0.0
    ensures r == x || r == -x
  {
    if x < 0.0 then -x else x
  }

  /** `np.clip(x, lo, hi)` on an integer, which NumPy evaluates as `minimum(maximum(x, lo), hi)`;
      when `lo > hi` the result is therefore `hi`. */
  function ClipInt(x: int, lo: int, hi: int): (r: int)
    ensures r <= hi
    ensures lo <= hi ==> lo <= r
    ensures lo <= x <= hi ==> r == x
    ensures x < lo && lo <= hi ==> r == lo
    ensures hi < x ==> r == hi
  {
    var m := if x < lo then lo else x;
    if m > hi then hi else m
  }

  /** `np.clip(x, lo, hi)` on a float, with the same `minimum(maximum(x, lo), hi)` order. */
  function Clip(x: real, lo: real, hi: real): (r: real)
    ensures r <= hi
    ensures lo <= hi ==> lo <= r
    ensures lo <= x <= hi ==> r == x
    ensures x < lo && lo <= hi ==> r == lo
    ensures hi < x ==> r == hi
  {
    var m := if x < lo then lo else x;
    if m > hi then hi else m
  }

  /** Clipping a value that is already clipped changes nothing. */
  lemma ClipIdempotent(x: real, lo: real, hi: real)
    requires lo <= hi
    ensures Clip(Clip(x, lo, hi), lo, hi) == Clip(x, lo, hi)
  {
  }

  /** `random.uniform(lo, hi)`, which CPython computes as `lo + (hi - lo) * random.random()`;
      `u` is the value that `random.random()` returned. */
  function Uniform(lo: real, hi: real, u: real): (r: real)
    ensures lo <= hi && 0.0 <= u <= 1.0 ==> lo <= r <= hi
  {
    ScaleWithinWidth(hi - lo, u);
    lo + (hi - lo) * u
  }

  lemma ScaleWithinWidth(w: real, u: real)
    ensures w >= 0.0 && 0.0 <= u <= 1.0 ==> 0.0 <= w * u <= w
  {
    if w >= 0.0 && 0.0 <= u <= 1.0 {
      assert w * u <= w * 1.0;
    }
  }
}
