/** Exact-real model of `round(x, 2)` on a NumPy scalar.

    NumPy scales the number by 100, rounds to the nearest integer with an
    exact tie going to the even neighbour ("banker's rounding"), and scales
    back. Here `x` is an exact real, so neither the binary representation of
    a float nor the rounding error of the two float scalings is modelled.
 */
module Rounding {

  /** Distance between a real and an integer. */
  function Dist(x: real, n: int): (d: real)
    ensures d >= 0.0
    ensures d == 0.0 <==> x == n as real
  {
    if x < n as real then n as real - x else x - n as real
  }

  /** `n` is a nearest integer to `x`, and where two are equally near it is
      the even one. */
  predicate IsNearestHalfEven(x: real, n: int) {
    Dist(x, n) <= 0.5 && (Dist(x, n) == 0.5 ==> n % 2 == 0)
  }

  /** `y` is a whole number of hundredths. */
  predicate IsHundredths(y: real) {
    (y * 100.0).Floor as real == y * 100.0
  }

  /** Round to the nearest integer, ties to even. */
  function RoundHalfEven(x: real): (n: int)
    ensures IsNearestHalfEven(x, n)
    ensures x.Floor <= n <= x.Floor + 1
  {
    var f := x.Floor;
    var frac := x - f as real;
    if frac < 0.5 then f
    else if frac > 0.5 then f + 1
    else if f % 2 == 0 then f
    else f + 1
  }

  /** The property IsNearestHalfEven picks out exactly one integer, so it is
      a complete specification of RoundHalfEven. */
  lemma NearestHalfEvenUnique(x: real, m: int, n: int)
    requires IsNearestHalfEven(x, m) && IsNearestHalfEven(x, n)
    ensures m == n
  {
  }

  /** Every integer is its own rounding. */
  lemma RoundHalfEvenOfInteger(k: int)
    ensures RoundHalfEven(k as real) == k
  {
    assert IsNearestHalfEven(k as real, k);
    NearestHalfEvenUnique(k as real, k, RoundHalfEven(k as real));
  }

  /** Rounding never reverses the order of two numbers. */
  lemma RoundHalfEvenMonotone(x: real, y: real)
    requires x <= y
    ensures RoundHalfEven(x) <= RoundHalfEven(y)
  {
    var fx, fy := x.Floor, y.Floor;
    assert fx <= fy;
    if fx == fy {
      assert x - fx as real <= y - fy as real;
    }
  }

  /** Python's `round(x, 2)`: the nearest whole number of hundredths, ties
      to even, written as the count of hundredths. */
  function RoundToHundredthsCount(x: real): (h: int)
    ensures IsNearestHalfEven(x * 100.0, h)
  {
    RoundHalfEven(x * 100.0)
  }

  /** Python's `round(x, 2)` as a number. */
  function RoundToHundredths(x: real): (y: real)
    ensures IsHundredths(y)
    ensures x - 0.005 <= y <= x + 0.005
    ensures IsNearestHalfEven(x * 100.0, (y * 100.0).Floor)
  {
    var h := RoundToHundredthsCount(x);
    var y := h as real / 100.0;
    assert y * 100.0 == h as real;
    assert (y * 100.0).Floor == h;
    y
  }

  /** Rounding to hundredths never reverses the order of two numbers. */
  lemma RoundToHundredthsMonotone(x: real, y: real)
    requires x <= y
    ensures RoundToHundredths(x) <= RoundToHundredths(y)
  {
    RoundHalfEvenMonotone(x * 100.0, y * 100.0);
  }

  /** A number that already has at most two decimals is left unchanged. */
  lemma RoundToHundredthsOfHundredths(y: real)
    requires IsHundredths(y)
    ensures RoundToHundredths(y) == y
  {
    var k := (y * 100.0).Floor;
    RoundHalfEvenOfInteger(k);
  }

  /** Rounding twice is rounding once. */
  lemma RoundToHundredthsIdempotent(x: real)
    ensures RoundToHundredths(RoundToHundredths(x)) == RoundToHundredths(x)
  {
    RoundToHundredthsOfHundredths(RoundToHundredths(x));
  }
}
