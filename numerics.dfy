/**
 * JavaScript numbers as reals. `Math.pow`, `Math.sqrt` and number-to-string
 * are not computed: they are supplied as a `MathLib` record, of which only the
 * facts in `Sound` are known.
 */
module Numerics {

  datatype MathLib = MathLib(pow: (real, real) -> real, sqrt: real -> real, show: real -> string) {
    /** The facts about `Math.pow` and `Math.sqrt` that the shadow engine relies on. */
    ghost predicate Sound() {
      && (forall b, e :: 0.0 <= b ==> 0.0 <= pow(b, e))
      && (forall e :: 0.0 < e ==> pow(0.0, e) == 0.0)
      && (forall x :: 0.0 <= x ==> 0.0 <= sqrt(x))
    }
  }

  /** A number that may be NaN, as `Math.min(undefined, x)` yields. */
  datatype Num = Real(v: real) | NaN

  /** `Math.max` on two numbers. */
  function Max(a: real, b: real): (r: real)
    ensures r >= a && r >= b && (r == a || r == b)
  {
    if a >= b then a else b
  }

  /** `Math.min` on two numbers. */
  function Min(a: real, b: real): (r: real)
    ensures r <= a && r <= b && (r == a || r == b)
  {
    if a <= b then a else b
  }

  /** `Math.round`: the nearest integer, halves rounded towards +infinity. */
  function Round(x: real): (n: int)
    ensures x - 0.5 < n as real <= x + 0.5
  {
    (x + 0.5).Floor
  }
}
