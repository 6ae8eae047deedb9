/** Small helpers shared by every subsystem: an optional value and the numeric clamps
    the game code takes from its framework's math helpers. */
module Common {

  datatype Option<+T> = None | Some(value: T)

  /** The larger of two reals, as `Math.max` on two numbers. */
  function Max(a: real, b: real): (r: real)
    ensures r >= a && r >= b
    ensures r == a || r == b
  {
    if a >= b then a else b
  }

  /** `Clamp(v, lo, hi)` as the framework defines it: `max(lo, min(hi, v))`. */
  function Clamp(v: real, lo: real, hi: real): (r: real)
    requires lo <= hi
    ensures lo <= r <= hi
    ensures lo <= v <= hi ==> r == v
    ensures v < lo ==> r == lo
    ensures v > hi ==> r == hi
  {
    if v < lo then lo else if v > hi then hi else v
  }

  /** Progress values are always clamped into [0, 1] before use. */
  function Clamp01(v: real): (r: real)
    ensures 0.0 <= r <= 1.0
    ensures 0.0 <= v <= 1.0 ==> r == v
  {
    Clamp(v, 0.0, 1.0)
  }

  /** `Math.round`: the nearest integer, halves rounded up. */
  function Round(x: real): (r: real)
    ensures x - 0.5 < r <= x + 0.5
    ensures r == r.Floor as real
  {
    (x + 0.5).Floor as real
  }
}
