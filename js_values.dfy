/**
 * The few JavaScript value conventions the dashboard's arithmetic relies on,
 * written over Dafny's unbounded integers.
 */
module JsValues {

  datatype Option<T> = None | Some(value: T)

  /** `Math.floor(a / b)` for a positive divisor (Dafny's `/` rounds down when b > 0). */
  function FloorDiv(a: int, b: int): (q: int)
    requires b > 0
    ensures b * q <= a < b * q + b
  {
    a / b
  }

  /** JavaScript's integer quotient `Math.trunc(a / b)`: rounds toward zero. */
  function TruncDiv(a: int, b: int): (q: int)
    requires b > 0
    ensures a >= 0 ==> q == FloorDiv(a, b)
    ensures a < 0 ==> q == -FloorDiv(-a, b)
  {
    if a >= 0 then a / b else -((-a) / b)
  }

  /**
   * JavaScript's `%` operator on integers: the remainder of truncating
   * division, so it carries the sign of the dividend.
   */
  function JsRem(a: int, b: int): (r: int)
    requires b > 0
    ensures a == b * TruncDiv(a, b) + r
    ensures -b < r < b
    ensures a >= 0 ==> 0 <= r
    ensures a <= 0 ==> r <= 0
  {
    if a >= 0 then a % b
    else
      var m := -a;
      assert m == b * (m / b) + m % b;
      -(m % b)
  }

  /** `Math.max(0, a)`. */
  function ClampNonNegative(a: int): (r: nat)
    ensures a <= r
    ensures r == a || r == 0
  {
    if a < 0 then 0 else a
  }
}
