/**
 * The few pieces of JavaScript number behaviour the app relies on:
 * `Math.round`, `Math.max`/`Math.min` used as a clamp, and `a || b` on a
 * number that may be missing or zero.
 */
module Numeric {
  import opened Wrappers

  function Max(a: int, b: int): int { if a >= b then a else b }

  function Min(a: int, b: int): int { if a <= b then a else b }

  /**
   * `Math.round(x)`: the nearest integer, with halves rounded up
   * (JavaScript rounds -2.5 to -2), i.e. Floor(x + 1/2).
   */
  function Round(x: real): (r: int)
    ensures r as real - 0.5 <= x < r as real + 0.5
  {
    (x + 0.5).Floor
  }

  /** `Math.max(lo, Math.min(hi, x))`. */
  function Clamp(x: int, lo: int, hi: int): (r: int)
    ensures lo <= hi ==> lo <= r <= hi
    ensures lo <= x <= hi ==> r == x
    ensures r == x || r == lo || r == hi
  {
    Max(lo, Min(hi, x))
  }

  /**
   * JavaScript `v || fallback` where `v` is a number or `undefined`:
   * a present, non-zero value wins, anything else gives the fallback.
   */
  function OrElse(v: Option<int>, fallback: int): (r: int)
    ensures (v.Some? && v.value != 0) ==> r == v.value
    ensures (v.None? || v.value == 0) ==> r == fallback
  {
    if v.Some? && v.value != 0 then v.value else fallback
  }

  /** `m[key]` on a JavaScript object used as a dictionary. */
  function Lookup<K, V>(m: map<K, V>, key: K): (r: Option<V>)
    ensures r.Some? <==> key in m
    ensures key in m ==> r.value == m[key]
  {
    if key in m then Some(m[key]) else None
  }

  /** Rounding is monotone: this is what makes percentages grow with their numerator. */
  lemma RoundMonotone(x: real, y: real)
    requires x <= y
    ensures Round(x) <= Round(y)
  {
  }

  /** Rounding an integer gives that integer back. */
  lemma RoundOfInt(n: int)
    ensures Round(n as real) == n
  {
  }
}
