/** JavaScript value conventions shared by the whole server model:
    optional arguments, thrown errors, and the number type. */
module Js {

  /** An argument that may be absent (`undefined` or `null` in JavaScript). */
  datatype Option<+T> = None | Some(value: T)

  /** The outcome of a call that may throw: `Err` carries the `Error.message`. */
  datatype Result<+T> = Ok(value: T) | Err(message: string)

  /** `a ?? d`: the argument when it is present, the default otherwise. */
  function OrDefault<T>(a: Option<T>, d: T): T {
    match a
    case Some(v) => v
    case None => d
  }

  /** A JavaScript number with no fractional part. */
  predicate IsInteger(x: real) {
    x.Floor as real == x
  }

  /** The number of times `for (let i = 0; i < n; i++)` runs its body:
      the least natural number that is not below `n`. */
  function Iterations(n: real): (k: nat)
    requires n >= 0.0
    ensures n <= k as real
    ensures k == 0 || (k - 1) as real < n
  {
    if IsInteger(n) then n.Floor else n.Floor + 1
  }

  /** A loop counter that has not yet reached the bound stays below the
      number of iterations, and one that has reached it equals it. */
  lemma IterationsBound(i: nat, n: real)
    requires n >= 0.0
    ensures (i as real) < n <==> i < Iterations(n)
  {
  }

  /** Adding one keeps a number integral, or not. */
  lemma IntegerSuccessor(x: real)
    ensures IsInteger(x + 1.0) <==> IsInteger(x)
  {
    assert (x + 1.0).Floor == x.Floor + 1;
  }

  /** An integer below `x + 1` is at most `x`, when `x` is integral. */
  lemma BelowSuccessor(v: int, x: real)
    requires IsInteger(x) && (v as real) < x + 1.0
    ensures (v as real) <= x
  {
    assert v < x.Floor + 1;
  }

  function Pow10(n: nat): (p: nat)
    ensures p >= 1
  {
    if n == 0 then 1 else 10 * Pow10(n - 1)
  }

  /** `parseFloat(x.toFixed(digits))` on exact reals: the multiple of
      10^-digits nearest to `x`, a tie going away from zero (`toFixed`
      rounds the magnitude and puts the sign back). */
  function ToFixed(x: real, digits: nat): real {
    if x < 0.0 then -RoundHalfUp(-x, digits) else RoundHalfUp(x, digits)
  }

  function RoundHalfUp(x: real, digits: nat): real {
    (NearestUnits(x, digits) as real) / (Pow10(digits) as real)
  }

  /** The whole number of 10^-digits units nearest to `x`, a tie going up. */
  function NearestUnits(x: real, digits: nat): int {
    (x * (Pow10(digits) as real) + 0.5).Floor
  }

  /** Rounding moves a value by at most half a unit in the last place. */
  lemma RoundHalfUpClose(x: real, digits: nat)
    ensures -0.5 / Pow10(digits) as real < RoundHalfUp(x, digits) - x <= 0.5 / Pow10(digits) as real
  {
    var s := Pow10(digits) as real;
    var n := NearestUnits(x, digits) as real;
    var d := n - x * s;
    assert -0.5 < d <= 0.5;
    DivideShifted(d, x, s);
    DivideHalfBounds(d, s);
  }

  lemma DivideShifted(d: real, x: real, s: real)
    requires s > 0.0
    ensures (d + x * s) / s == d / s + x
  {
    assert (d + x * s) / s == d / s + (x * s) / s;
  }

  lemma DivideHalfBounds(d: real, s: real)
    requires s > 0.0 && -0.5 < d <= 0.5
    ensures -0.5 / s < d / s <= 0.5 / s
  {
    assert d / s - (-0.5) / s == (d + 0.5) / s;
    assert 0.5 / s - d / s == (0.5 - d) / s;
  }

  lemma ToFixedClose(x: real, digits: nat)
    ensures -0.5 / Pow10(digits) as real <= ToFixed(x, digits) - x <= 0.5 / Pow10(digits) as real
  {
    if x < 0.0 {
      RoundHalfUpClose(-x, digits);
    } else {
      RoundHalfUpClose(x, digits);
    }
  }
}
