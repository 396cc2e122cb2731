/**
 The number helpers of the game: `Math.min`, `Math.max`, `clamp` and
 `flipSignValue`. JavaScript numbers are modelled as exact reals, so there is
 no rounding, no NaN and no infinity.
 */
module Numeric {

  /** `Math.min` of two finite numbers. */
  function Min(a: real, b: real): (r: real)
    ensures r <= a && r <= b
    ensures r == a || r == b
  {
    if a <= b then a else b
  }

  /** `Math.max` of two finite numbers. */
  function Max(a: real, b: real): (r: real)
    ensures r >= a && r >= b
    ensures r == a || r == b
  {
    if a >= b then a else b
  }

  /** Magnitude of a number. */
  function Abs(v: real): (r: real)
    ensures r >= 0.0
    ensures r == v || r == -v
  {
    if v >= 0.0 then v else -v
  }

  /** `clamp(num, min, max)`: the upper bound is applied first, then the
      lower one, so with inverted bounds (`max < min`) the result is `min`. */
  function Clamp(num: real, lo: real, hi: real): (r: real)
    ensures lo <= r
    ensures lo <= hi ==> r <= hi
    ensures lo <= num <= hi ==> r == num
    ensures num < lo ==> r == lo
    ensures lo <= hi < num ==> r == hi
    ensures hi < lo ==> r == lo
  {
    Max(lo, Min(num, hi))
  }

  /** Clamping an already clamped value changes nothing. */
  lemma ClampIdempotent(num: real, lo: real, hi: real)
    ensures Clamp(Clamp(num, lo, hi), lo, hi) == Clamp(num, lo, hi)
  {
  }

  /** Clamping into a range with 0 strictly inside keeps the sign of the value. */
  lemma ClampKeepsSign(num: real, lo: real, hi: real)
    requires lo < 0.0 < hi
    ensures Clamp(num, lo, hi) > 0.0 <==> num > 0.0
    ensures Clamp(num, lo, hi) < 0.0 <==> num < 0.0
  {
  }

  /** `flipSignValue`: the additive inverse; it maps 0 to 0 and swaps the
      sign of every other value. */
  function FlipSignValue(v: real): (r: real)
    ensures r + v == 0.0
    ensures r == 0.0 <==> v == 0.0
    ensures r > 0.0 <==> v < 0.0
    ensures Abs(r) == Abs(v)
  {
    -v
  }

  /** Flipping twice gives the original value back. */
  lemma FlipSignValueInvolution(v: real)
    ensures FlipSignValue(FlipSignValue(v)) == v
  {
  }
}
