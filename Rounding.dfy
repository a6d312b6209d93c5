/**
 * `Math.round(x)` and `x.toFixed(1)` applied to a ratio of two integers,
 * computed exactly. `Math.round` rounds half-way cases upwards, and so does
 * `toFixed` on a non-negative value.
 */
module Rounding {

  /** The integer nearest to `n / d`, half-way cases rounded up: floor(n/d + 1/2). */
  function RoundHalfUp(n: int, d: int): (r: int)
    requires d > 0
    ensures 2 * r * d - d <= 2 * n < 2 * r * d + d
  {
    var r := (2 * n + d) / (2 * d);
    DivBounds(2 * n + d, 2 * d);
    r
  }

  lemma DivBounds(a: int, b: int)
    requires b > 0
    ensures b * (a / b) <= a < b * (a / b) + b
  {
  }

  /** `Math.round((part / whole) * 100)`. */
  function Percent(part: int, whole: int): (r: int)
    requires whole > 0
    ensures 2 * r * whole - whole <= 200 * part < 2 * r * whole + whole
    ensures 0 <= part <= whole ==> 0 <= r <= 100
    ensures part == whole ==> r == 100
    ensures part == 0 ==> r == 0
  {
    var r := RoundHalfUp(100 * part, whole);
    PercentRange(part, whole, r);
    r
  }

  /** Multiplying by a positive number preserves strict order both ways. */
  lemma MulStrict(a: int, b: int, w: int)
    requires w > 0
    ensures a < b <==> a * w < b * w
  {
    assert (b - a) * w == b * w - a * w;
  }

  lemma PercentRange(part: int, whole: int, r: int)
    requires whole > 0
    requires 2 * r * whole - whole <= 200 * part < 2 * r * whole + whole
    ensures 0 <= part <= whole ==> 0 <= r <= 100
    ensures part == whole ==> r == 100
    ensures part == 0 ==> r == 0
  {
    MulStrict(-1, r, whole);
    MulStrict(r, 101, whole);
    MulStrict(99, r, whole);
    MulStrict(r, 1, whole);
  }

  /** `((part / whole) * 100).toFixed(1)`, counted in tenths of a percent. */
  function PercentTenths(part: int, whole: int): (r: int)
    requires whole > 0
    ensures 2 * r * whole - whole <= 2000 * part < 2 * r * whole + whole
    ensures 0 <= part <= whole ==> 0 <= r <= 1000
    ensures part == whole ==> r == 1000
    ensures part == 0 ==> r == 0
  {
    var r := RoundHalfUp(1000 * part, whole);
    TenthsRange(part, whole, r);
    r
  }

  lemma TenthsRange(part: int, whole: int, r: int)
    requires whole > 0
    requires 2 * r * whole - whole <= 2000 * part < 2 * r * whole + whole
    ensures 0 <= part <= whole ==> 0 <= r <= 1000
    ensures part == whole ==> r == 1000
    ensures part == 0 ==> r == 0
  {
    MulStrict(-1, r, whole);
    MulStrict(r, 1001, whole);
    MulStrict(999, r, whole);
    MulStrict(r, 1, whole);
  }
}
