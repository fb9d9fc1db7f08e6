/**
 * The few pieces of JavaScript number semantics the model needs: `Math.floor`, `Math.ceil`,
 * `Math.round`, `Math.abs`, `Math.min`, `Math.max` on exact reals, and the infinities and NaN
 * that a division by zero produces. Rounding of binary floating point is not modelled.
 */
module JsNumbers {

  function Floor(x: real): int {
    x.Floor
  }

  /** `Math.ceil`: the least integer not below `x`. */
  function Ceil(x: real): (r: int)
    ensures r as real >= x && (r as real) - 1.0 < x
  {
    -((-x).Floor)
  }

  /** `Math.round`: the nearest integer, halves rounded up. */
  function Round(x: real): (r: int)
    ensures x - 0.5 < r as real <= x + 0.5
  {
    (x + 0.5).Floor
  }

  function Abs(x: real): (r: real)
    ensures r >= 0.0 && (r == x || r == -x)
  {
    if x < 0.0 then -x else x
  }

  function Max(a: real, b: real): (r: real)
    ensures r >= a && r >= b && (r == a || r == b)
  {
    if a >= b then a else b
  }

  function Min(a: real, b: real): (r: real)
    ensures r <= a && r <= b && (r == a || r == b)
  {
    if a <= b then a else b
  }

  function MaxInt(a: int, b: int): (r: int)
    ensures r >= a && r >= b && (r == a || r == b)
  {
    if a >= b then a else b
  }

  function MinInt(a: int, b: int): (r: int)
    ensures r <= a && r <= b && (r == a || r == b)
  {
    if a <= b then a else b
  }

  /** A JavaScript number: a finite value, an infinity, or NaN. */
  datatype Num = Finite(value: real) | PosInf | NegInf | NaN

  /** `x / y` for finite `x` and `y`; a zero divisor gives an infinity or, for `0 / 0`, NaN. */
  function Div(x: real, y: real): (r: Num)
    ensures y != 0.0 ==> r == Finite(x / y)
    ensures y == 0.0 ==> (r.PosInf? <==> x > 0.0) && (r.NegInf? <==> x < 0.0) && (r.NaN? <==> x == 0.0)
  {
    if y != 0.0 then Finite(x / y)
    else if x > 0.0 then PosInf
    else if x < 0.0 then NegInf
    else NaN
  }

  /** `n * k` for a positive finite factor `k`. */
  function Scale(n: Num, k: real): Num
    requires k > 0.0
  {
    match n
    case Finite(v) => Finite(v * k)
    case _ => n
  }

  /** `n + c` for a finite `c`. */
  function Plus(n: Num, c: real): Num {
    match n
    case Finite(v) => Finite(v + c)
    case _ => n
  }

  /** `Math.min(bound, n)`: NaN stays NaN, +Infinity becomes `bound`. */
  function MinWith(bound: real, n: Num): Num {
    match n
    case Finite(v) => Finite(Min(bound, v))
    case PosInf => Finite(bound)
    case NegInf => NegInf
    case NaN => NaN
  }

  /** `n >= t` for a finite `t`: false for NaN and -Infinity, true for +Infinity. */
  predicate AtLeast(n: Num, t: real) {
    match n
    case Finite(v) => v >= t
    case PosInf => true
    case NegInf => false
    case NaN => false
  }

  /** `n <= t` for a finite `t`: false for NaN and +Infinity, true for -Infinity. */
  predicate AtMost(n: Num, t: real) {
    match n
    case Finite(v) => v <= t
    case PosInf => false
    case NegInf => true
    case NaN => false
  }

  /** `n > t` for a finite `t`: false for NaN and -Infinity, true for +Infinity. */
  predicate Above(n: Num, t: real) {
    match n
    case Finite(v) => v > t
    case PosInf => true
    case NegInf => false
    case NaN => false
  }

  /** `x / n` for a finite `x`: a finite quotient by a finite `n`, 0 by an infinity, NaN by NaN. */
  function DivBy(x: real, n: Num): (r: Num)
    ensures n.NaN? ==> r.NaN?
    ensures (n.PosInf? || n.NegInf?) ==> r == Finite(0.0)
    ensures n.Finite? && n.value != 0.0 ==> r == Finite(x / n.value)
  {
    match n
    case Finite(v) => Div(x, v)
    case NaN => NaN
    case _ => Finite(0.0)
  }

  /** `a - b`: NaN when either is NaN or when both are the same infinity. */
  function Minus(a: Num, b: Num): (r: Num)
    ensures a.Finite? && b.Finite? ==> r == Finite(a.value - b.value)
    ensures a.NaN? || b.NaN? ==> r.NaN?
  {
    match (a, b)
    case (NaN, _) => NaN
    case (_, NaN) => NaN
    case (Finite(x), Finite(y)) => Finite(x - y)
    case (PosInf, PosInf) => NaN
    case (NegInf, NegInf) => NaN
    case (PosInf, _) => PosInf
    case (NegInf, _) => NegInf
    case (Finite(_), PosInf) => NegInf
    case (Finite(_), NegInf) => PosInf
  }
}
