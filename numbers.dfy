/**
 * JavaScript numbers as the study code uses them: exact reals, with NaN kept
 * apart, and the `Math` helpers (`max`, `min`, `abs`, `round`).
 */
module Numbers {

  /** A JavaScript number that is either a finite value or NaN (the result of a failed parse). */
  datatype Num = Finite(value: real) | NaN

  function Max(a: real, b: real): (r: real)
    ensures r >= a && r >= b && (r == a || r == b)
  {
    if a >= b then a else b
  }

  function Min(a: real, b: real): (r: real)
    ensures r <= a && r <= b && (r == a || r == b)
  {
    if a <= b then a else b
  }

  function Abs(a: real): (r: real)
    ensures r >= 0.0 && (r == a || r == -a)
  {
    if a >= 0.0 then a else -a
  }

  /** `Math.round`: the nearest integer, halves rounded up. */
  function Round(x: real): (r: int)
    ensures x - 0.5 < r as real <= x + 0.5
  {
    (x + 0.5).Floor
  }

  /** Rounding an integer gives it back. */
  lemma RoundInt(k: int)
    ensures Round(k as real) == k
  {
  }

  predicate IsInteger(x: real) { x == x.Floor as real }

  /** `Math.round` on a number that may be NaN. */
  function RoundNum(n: Num): (r: Num)
    ensures r.NaN? <==> n.NaN?
    ensures r.Finite? ==> IsInteger(r.value) && Abs(r.value - n.value) <= 0.5
  {
    match n
    case NaN => NaN
    case Finite(v) => Finite(Round(v) as real)
  }

  /** `a - b`, NaN when either side is NaN. */
  function Sub(a: Num, b: Num): (r: Num)
    ensures r.Finite? <==> a.Finite? && b.Finite?
    ensures r.Finite? ==> r.value + b.value == a.value
  {
    if a.Finite? && b.Finite? then Finite(a.value - b.value) else NaN
  }

  /** `n > 0`; every comparison with NaN is false. */
  predicate Positive(n: Num) { n.Finite? && n.value > 0.0 }
}
