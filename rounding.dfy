/**
 * Rounding for display on exact reals, ties away from zero:
 * `parseFloat(x.toFixed(2))` keeps the nearest multiple of 0.01 (toFixed
 * works on |x| and restores the sign), and `toLocaleString` with
 * `maximumFractionDigits: 0` keeps the nearest whole number.
 * Binary floating point is not modelled.
 */
module Rounding {

  /** x is a whole number of hundredths. */
  predicate IsCents(x: real) {
    (x * 100.0).Floor as real == x * 100.0
  }

  /** The nearest whole number, ties away from zero. */
  function Round0(x: real): (n: int)
    ensures x >= 0.0 ==> -0.5 < n as real - x <= 0.5
    ensures x < 0.0 ==> -0.5 <= n as real - x < 0.5
    ensures x >= 0.0 ==> n >= 0
    ensures x <= 0.0 ==> n <= 0
  {
    if x < 0.0 then -((-x) + 0.5).Floor else (x + 0.5).Floor
  }

  /** The number of hundredths `x.toFixed(2)` keeps. */
  function Cents(x: real): (n: int)
    ensures -0.5 <= n as real - x * 100.0 <= 0.5
  {
    Round0(x * 100.0)
  }

  function Round2(x: real): (r: real)
    ensures IsCents(r)
    ensures -0.005 <= r - x <= 0.005
    ensures x >= 0.0 ==> r >= 0.0
  {
    var n := Cents(x);
    assert n as real / 100.0 * 100.0 == n as real;
    n as real / 100.0
  }

  /** Rounding leaves a value that is already in hundredths unchanged. */
  lemma Round2OfCents(x: real)
    requires IsCents(x)
    ensures Round2(x) == x
  {
    var k := (x * 100.0).Floor;
    assert Round0(k as real) == k;
    assert Cents(x) == k;
  }

  /** Rounding twice is rounding once. */
  lemma Round2Idempotent(x: real)
    ensures Round2(Round2(x)) == Round2(x)
  {
    Round2OfCents(Round2(x));
  }

  /** Rounding preserves order. */
  lemma Round2Monotone(x: real, y: real)
    requires x <= y
    ensures Round2(x) <= Round2(y)
  {
    assert Cents(x) <= Cents(y);
  }
}
