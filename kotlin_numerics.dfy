/**
 * The Kotlin numeric conversions the widget relies on, written out over exact
 * arithmetic: `Float.toInt()` truncates toward zero, `Float.roundToInt()` rounds
 * half up, and `Int`/`Long` division and remainder truncate toward zero (Dafny's
 * own `/` and `%` are Euclidean).  Float rounding error and the saturation of
 * `toInt()` at the `Int` range are not modelled.
 */
module KotlinNumerics {

  /** `Float.toInt()`: the integer part, truncated toward zero. */
  function TruncToInt(x: real): (n: int)
    ensures 0.0 <= x ==> 0 <= n && n as real <= x < n as real + 1.0
    ensures x < 0.0 ==> n <= 0 && n as real - 1.0 < x <= n as real
  {
    if x >= 0.0 then x.Floor else -((-x).Floor)
  }

  /** `Float.roundToInt()`: the nearest integer, halves rounded up. */
  function RoundToInt(x: real): (n: int)
    ensures n as real - 0.5 <= x < n as real + 0.5
  {
    (x + 0.5).Floor
  }

  /** Kotlin `a / b` on integers for a positive divisor: truncation toward zero. */
  function KDiv(a: int, b: int): (q: int)
    requires b > 0
    ensures 0 <= a ==> 0 <= q && q * b <= a < q * b + b
    ensures a < 0 ==> q <= 0 && q * b - b < a <= q * b
  {
    if a >= 0 then a / b else -((-a) / b)
  }

  /** Kotlin `a % b` on integers: takes the sign of the dividend. */
  function KRem(a: int, b: int): (r: int)
    requires b > 0
    ensures 0 <= a ==> 0 <= r < b
    ensures a < 0 ==> -b < r <= 0
    ensures a == KDiv(a, b) * b + r
  {
    a - KDiv(a, b) * b
  }

  /** Truncation never exceeds rounding, and rounding exceeds truncation by at most one (for x >= 0). */
  lemma TruncBelowRound(x: real)
    requires 0.0 <= x
    ensures TruncToInt(x) <= RoundToInt(x) <= TruncToInt(x) + 1
  {
  }

  /** Both conversions leave whole numbers unchanged. */
  lemma WholeNumbersFixed(n: int)
    ensures TruncToInt(n as real) == n && RoundToInt(n as real) == n
  {
  }

  /** Both conversions are monotone. */
  lemma ConversionsMonotone(x: real, y: real)
    requires x <= y
    ensures TruncToInt(x) <= TruncToInt(y)
    ensures RoundToInt(x) <= RoundToInt(y)
  {
  }

  /** Adding one to a non-negative number adds one to its truncation and to its rounding. */
  lemma ConversionsShiftByOne(x: real)
    requires 0.0 <= x
    ensures TruncToInt(x + 1.0) == TruncToInt(x) + 1
    ensures RoundToInt(x + 1.0) == RoundToInt(x) + 1
  {
  }
}
