/** The scalar helpers the renderer and the view controls share: `clampf`,
    `lroundf` and the truncating float-to-byte conversion.  Floats are
    modelled as reals. */
module Numeric {

  /** `clampf(v, lo, hi)`: `lo` below the range, `hi` above it, `v` inside. */
  function Clamp(v: real, lo: real, hi: real): (r: real)
    ensures lo <= hi ==> lo <= r <= hi
    ensures lo <= v <= hi ==> r == v
    ensures r == lo || r == hi || r == v
  {
    if v < lo then lo else if v > hi then hi else v
  }

  /** Clamping twice is clamping once. */
  lemma ClampIdempotent(v: real, lo: real, hi: real)
    requires lo <= hi
    ensures Clamp(Clamp(v, lo, hi), lo, hi) == Clamp(v, lo, hi)
  {
  }

  /** Clamping preserves order. */
  lemma ClampMonotone(u: real, v: real, lo: real, hi: real)
    requires lo <= hi && u <= v
    ensures Clamp(u, lo, hi) <= Clamp(v, lo, hi)
  {
  }

  /** `lroundf`: the nearest integer, halves rounded away from zero. */
  function LRound(v: real): (n: int)
    ensures v >= 0.0 ==> n as real - 0.5 <= v < n as real + 0.5
    ensures v < 0.0 ==> n as real - 0.5 < v <= n as real + 0.5
  {
    if v >= 0.0 then (v + 0.5).Floor else -((-v + 0.5).Floor)
  }

  /** Integers round to themselves. */
  lemma LRoundOfInt(k: int)
    ensures LRound(k as real) == k
  {
  }

  /** Rounding is symmetric about zero. */
  lemma LRoundNegate(v: real)
    ensures LRound(-v) == -LRound(v)
  {
    if v == 0.0 {
      assert -v == 0.0;
    }
  }

  /** Rounding preserves order. */
  lemma LRoundMonotone(u: real, v: real)
    requires u <= v
    ensures LRound(u) <= LRound(v)
  {
  }

  /** The C conversion `(int)x`: truncation toward zero. */
  function Trunc(x: real): (n: int)
    ensures x >= 0.0 ==> n as real <= x < n as real + 1.0
    ensures x < 0.0 ==> n as real - 1.0 < x <= n as real
  {
    if x >= 0.0 then x.Floor else -((-x).Floor)
  }

  /** C's `/` on `int`: the quotient truncated toward zero. */
  function CDiv(a: int, b: int): (q: int)
    requires b != 0
    ensures a >= 0 && b > 0 ==> q == a / b
  {
    var m := (if a < 0 then -a else a) / (if b < 0 then -b else b);
    if (a < 0) != (b < 0) then -m else m
  }

  /** C's `%` on `int`: the remainder takes the sign of the dividend. */
  function CMod(a: int, b: int): (r: int)
    requires b != 0
    ensures a == b * CDiv(a, b) + r
    ensures a >= 0 ==> 0 <= r < (if b < 0 then -b else b)
    ensures a < 0 ==> -(if b < 0 then -b else b) < r <= 0
    ensures a >= 0 && b > 0 ==> r == a % b
  {
    a - b * CDiv(a, b)
  }

  /** `uint8_t` and `uint32_t` values. */
  newtype u8 = x: int | 0 <= x < 0x100
  newtype u32 = x: int | 0 <= x < 0x1_0000_0000

  /** The C conversion `(uint8_t)x` of a value already clamped to [0, 255]:
      truncation, which for a non-negative value is the floor. */
  function ToByte(x: real): (b: u8)
    requires 0.0 <= x <= 255.0
    ensures b as real <= x < b as real + 1.0
  {
    x.Floor as u8
  }
}
