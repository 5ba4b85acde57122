/** Scalar helpers: `_clamp` (update_data.py:80-81) and the `round(x, n)` applied to every
    `current` value the updaters write. Rounding is modelled on exact reals: the value is
    scaled by 10^n, rounded to the nearest integer with ties to even (Python's rule), and
    scaled back. */
module Numeric {

  /** `_clamp`: `max(lo, min(hi, value))`. */
  function Clamp(value: real, lo: real, hi: real): (r: real)
    ensures r >= lo
    ensures r <= hi || r == lo
    ensures lo <= hi ==> lo <= r <= hi
    ensures lo <= value <= hi ==> r == value
    ensures value < lo ==> r == lo
    ensures lo <= hi < value ==> r == hi
  {
    var m := if hi < value then hi else value;
    if lo < m then m else lo
  }

  /** Clamping an already clamped value changes nothing. */
  lemma ClampIdempotent(value: real, lo: real, hi: real)
    requires lo <= hi
    ensures Clamp(Clamp(value, lo, hi), lo, hi) == Clamp(value, lo, hi)
  {
  }

  /** `sum(xs)` over a list of values. */
  function Sum(xs: seq<real>): real {
    if xs == [] then 0.0 else xs[0] + Sum(xs[1..])
  }

  /** `x * 100`: a ratio expressed in percent. */
  function Percent(x: real): (p: real)
    ensures x > 0.0 ==> p > x
    ensures x < 0.0 ==> p < x
    ensures x == 0.0 <==> p == 0.0
  {
    x * 100.0
  }

  /** 10^n. */
  function Pow10(n: nat): (p: real)
    ensures p >= 1.0
  {
    if n == 0 then 1.0 else 10.0 * Pow10(n - 1)
  }

  /** Nearest integer to `y`, ties to the even neighbour. */
  function RoundHalfEven(y: real): (k: int)
    ensures -0.5 <= k as real - y <= 0.5
    ensures y == y.Floor as real ==> k == y.Floor
    ensures k as real - y == 0.5 || y - k as real == 0.5 ==> k % 2 == 0
  {
    var f := y.Floor;
    var frac := y - f as real;
    if frac < 0.5 then f
    else if frac > 0.5 then f + 1
    else if f % 2 == 0 then f
    else f + 1
  }

  /** `x * p`, named so that the scaled value is one term for the solver. */
  function Scale(x: real, p: real): real {
    x * p
  }

  /** `round(x, n)` on the exact value: the nearest multiple of 10^-n, ties to even. */
  function Round(x: real, n: nat): (r: real)
    ensures r * Pow10(n) == RoundHalfEven(Scale(x, Pow10(n))) as real
    ensures -0.5 <= r * Pow10(n) - x * Pow10(n) <= 0.5
  {
    Unscale(RoundHalfEven(Scale(x, Pow10(n))) as real, Pow10(n))
  }

  /** Division by a positive scale, with the product stated for later use. */
  function Unscale(y: real, p: real): (r: real)
    requires p > 0.0
    ensures r * p == y
  {
    y / p
  }

  /** Rounding a rounded value again changes nothing. */
  lemma {:induction false} RoundIdempotent(x: real, n: nat)
    ensures Round(Round(x, n), n) == Round(x, n)
  {
    var p := Pow10(n);
    var r := Round(x, n);
    var k := RoundHalfEven(Scale(x, p));
    assert Scale(r, p) == k as real;
  }

  /** Two worked cases of the tie rule: 0.125 rounds down to 0.12, 0.135 up to 0.14. */
  lemma TiesGoToEven()
    ensures Round(0.125, 2) == 0.12
    ensures Round(0.135, 2) == 0.14
  {
    assert Pow10(2) == 100.0;
    assert Scale(0.125, 100.0) == 12.5 && RoundHalfEven(12.5) == 12;
    assert Scale(0.135, 100.0) == 13.5 && RoundHalfEven(13.5) == 14;
  }
}
