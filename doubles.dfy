/**
 * Kotlin `Double` values as far as this application compares them.
 * A `Double` is a finite number, an infinity or NaN; every ordering
 * comparison involving NaN is false.
 */
module Doubles {

  datatype Double = Finite(value: real) | PosInf | NegInf | NaN

  /** Kotlin's `d <= bound`. */
  predicate AtMost(d: Double, bound: real) {
    match d
    case Finite(v) => v <= bound
    case NegInf => true
    case PosInf => false
    case NaN => false
  }

  /** Kotlin's `d > bound`. */
  predicate Above(d: Double, bound: real) {
    match d
    case Finite(v) => v > bound
    case PosInf => true
    case NegInf => false
    case NaN => false
  }

  /** Kotlin's `d >= bound`. */
  predicate AtLeast(d: Double, bound: real) {
    match d
    case Finite(v) => v >= bound
    case PosInf => true
    case NegInf => false
    case NaN => false
  }

  /** `Double.MAX_VALUE`, the largest finite double, (2 - 2^-52) * 2^1023. */
  const DoubleMax: real := 179769313486231570814527423731704356798070567525844996598917476803157260780028538760589558632766878171540458953514382464234321326889464182768467546703537516986049910576551282076245490090389328944075868508455133942304583236903222948165808559332123348274797826204144723168738177180919299881250404026184124858368.0

  /** Kotlin's `Double.toInt()` on a finite value: truncation toward zero. */
  function TruncateToInt(v: real): (n: int)
    ensures v >= 0.0 ==> n as real <= v < n as real + 1.0
    ensures v < 0.0 ==> n as real - 1.0 < v <= n as real
  {
    if v >= 0.0 then v.Floor else -((-v).Floor)
  }

  const IntMin: int := -0x8000_0000
  const IntMax: int := 0x7fff_ffff

  /** Kotlin's `Double.toInt()`: truncation toward zero, saturating at the
      32-bit bounds; NaN becomes 0. */
  function ToInt(d: Double): (n: int)
    ensures IntMin <= n <= IntMax
    ensures d.Finite? && 0.0 <= d.value <= IntMax as real ==> n as real <= d.value < n as real + 1.0
    ensures d.Finite? && IntMin as real <= d.value < 0.0 ==> n as real - 1.0 < d.value <= n as real
    ensures d == NaN ==> n == 0
  {
    match d
    case NaN => 0
    case PosInf => IntMax
    case NegInf => IntMin
    case Finite(v) =>
      var t := TruncateToInt(v);
      if t < IntMin then IntMin else if t > IntMax then IntMax else t
  }
}
