/**
 Shared vocabulary of the backend model: an optional value, the JavaScript
 numeric helpers the services rely on (`Math.round`, `Math.min`/`Math.max`,
 `toFixed(2)`), array prefixes (`slice(0, n)`) and the abstract base-10
 logarithm used by the impact formulas.
 */
module Basics {

  /** A value that may be absent (`undefined`/`null` in the services). */
  datatype Option<+T> = None | Some(value: T) {
    function GetOr(default: T): T {
      match this
      case Some(v) => v
      case None => default
    }
  }

  /** Milliseconds in a minute, the unit of every lifetime and label. */
  const MsPerMinute: int := 60000

  function Min(a: int, b: int): int { if a <= b then a else b }

  function Max(a: int, b: int): int { if a <= b then b else a }

  function MinReal(a: real, b: real): real { if a <= b then a else b }

  function MaxReal(a: real, b: real): real { if a <= b then b else a }

  function Abs(a: int): nat { if a < 0 then -a else a }

  /** `Math.round`: the nearest integer, half-way cases rounded towards +infinity. */
  function Round(x: real): (r: int)
    ensures r as real - 0.5 <= x < r as real + 0.5
  {
    (x + 0.5).Floor
  }

  /** Rounding an integral value gives that value back. */
  lemma RoundIntegral(k: int)
    ensures Round(k as real) == k
  {
  }

  /** Rounding is monotone. */
  lemma RoundMonotone(x: real, y: real)
    requires x <= y
    ensures Round(x) <= Round(y)
  {
  }

  /** `Number(x.toFixed(2))`: x rounded to two decimal places (exact real arithmetic). */
  function ToFixed2(x: real): real
  {
    Round(x * 100.0) as real / 100.0
  }

  /** `s.slice(0, n)` for a non-negative `n`. */
  function Take<T>(s: seq<T>, n: nat): (r: seq<T>)
    ensures |r| == Min(n, |s|)
    ensures r == s[..|r|]
  {
    if n <= |s| then s[..n] else s
  }

  /** Concatenation of a sequence of batches, in order. */
  function Flatten<T>(ss: seq<seq<T>>): seq<T>
  {
    if |ss| == 0 then [] else Flatten(ss[..|ss| - 1]) + ss[|ss| - 1]
  }

  /**
   What the impact formulas need to know about `Math.log10`: it is zero at 1
   and non-decreasing from there on. Every formula takes the logarithm as a
   parameter, and every property that depends on it assumes this predicate.
   */
  ghost predicate LogLike(lg: real -> real)
  {
    && lg(1.0) == 0.0
    && forall x: real, y: real :: 1.0 <= x <= y ==> lg(x) <= lg(y)
  }

  /** Under `LogLike`, the logarithm of anything at least 1 is non-negative. */
  lemma LogNonNegative(lg: real -> real, x: real)
    requires LogLike(lg)
    requires 1.0 <= x
    ensures 0.0 <= lg(x)
  {
  }
}
