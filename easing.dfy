/**
 * The two numeric helpers the horizontal speed update relies on, with the meaning Unity
 * documents for them, over mathematical reals.
 */
module Easing {

  function Min(a: real, b: real): real { if a <= b then a else b }
  function Max(a: real, b: real): real { if a <= b then b else a }

  /** Mathf.Clamp01. */
  function Clamp01(t: real): (r: real)
    ensures 0.0 <= r <= 1.0
    ensures 0.0 <= t <= 1.0 ==> r == t
    ensures t < 0.0 ==> r == 0.0
    ensures t > 1.0 ==> r == 1.0
  {
    if t < 0.0 then 0.0 else if t > 1.0 then 1.0 else t
  }

  /** Mathf.Lerp: the interpolation parameter is clamped, so the result never leaves [a, b]. */
  function Lerp(a: real, b: real, t: real): (r: real)
    ensures Min(a, b) <= r <= Max(a, b)
    ensures t <= 0.0 ==> r == a
    ensures t >= 1.0 ==> r == b
  {
    var c := Clamp01(t);
    InterpolantBetween(a, b, c);
    a + (b - a) * c
  }

  /** A point a + (b - a) * c with c in [0, 1] lies between a and b, at a when c is 0 and at b when c is 1. */
  lemma InterpolantBetween(a: real, b: real, c: real)
    requires 0.0 <= c <= 1.0
    ensures Min(a, b) <= a + (b - a) * c <= Max(a, b)
    ensures c == 0.0 ==> a + (b - a) * c == a
    ensures c == 1.0 ==> a + (b - a) * c == b
  {
    var d, e := b - a, 1.0 - c;
    assert d * c + d * e == d;
    if a <= b {
      assert 0.0 <= d * c && 0.0 <= d * e;
    } else {
      assert (-d) * c >= 0.0 && (-d) * e >= 0.0;
    }
  }

  /** Mathf.Round: the nearest integer, a value exactly halfway between two integers going to the
      even one (RoundHalfToEven). */
  function Round(x: real): (r: int)
    ensures -0.5 <= x - r as real <= 0.5
  {
    var f := x.Floor;
    var frac := x - f as real;
    if frac < 0.5 then f
    else if frac > 0.5 then f + 1
    else if f % 2 == 0 then f
    else f + 1
  }

  /** A value halfway between two integers rounds to the even one, and an integer to itself. */
  lemma RoundHalfToEven(x: real)
    ensures x - Round(x) as real == 0.5 || Round(x) as real - x == 0.5 ==> Round(x) % 2 == 0
    ensures x == x.Floor as real ==> Round(x) == x.Floor
  {
  }

  /** `Mathf.Round(v * 1000f) / 1000f`: a value with at most three decimal places, within 0.0005 of v;
      when v lies halfway between two such values, the one whose thousandths count is even. */
  function RoundToThousandths(v: real): (r: real)
    ensures -0.0005 <= r - v <= 0.0005
    ensures (r * 1000.0).Floor as real == r * 1000.0
    ensures v * 1000.0 - r * 1000.0 == 0.5 || r * 1000.0 - v * 1000.0 == 0.5 ==> (r * 1000.0).Floor % 2 == 0
  {
    var x := v * 1000.0;
    var n := Round(x);
    RoundHalfToEven(x);
    Thousandths(v, x, n, n as real / 1000.0);
    n as real / 1000.0
  }

  /** An integer count n of thousandths, rounded from x = v * 1000, read back as a value r. */
  lemma Thousandths(v: real, x: real, n: int, r: real)
    requires x == v * 1000.0 && r == n as real / 1000.0
    requires -0.5 <= x - n as real <= 0.5
    requires x - n as real == 0.5 || n as real - x == 0.5 ==> n % 2 == 0
    ensures -0.0005 <= r - v <= 0.0005
    ensures (r * 1000.0).Floor as real == r * 1000.0
    ensures v * 1000.0 - r * 1000.0 == 0.5 || r * 1000.0 - v * 1000.0 == 0.5 ==> (r * 1000.0).Floor % 2 == 0
  {
    assert r * 1000.0 == n as real;
    assert (r * 1000.0).Floor == n;
  }

  /** A Lerp step rounded to three decimals stays within 0.0005 of the segment [a, b], and
      within 0.0005 of b once t reaches 1. */
  lemma RoundedLerpBounds(a: real, b: real, t: real)
    ensures Min(a, b) - 0.0005 <= RoundToThousandths(Lerp(a, b, t)) <= Max(a, b) + 0.0005
    ensures t >= 1.0 ==> b - 0.0005 <= RoundToThousandths(Lerp(a, b, t)) <= b + 0.0005
  {
  }
}
