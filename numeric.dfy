/**
  Rust's fixed-width integers and the numeric casts the projector uses:
  `f64 as i32` (truncate toward zero, saturate at the bounds), `i32 + i32`
  and `i32 as u32` (two's-complement reinterpretation). Reals stand for `f64`.
 */
module RustNum {

  const I32_MIN: int := -0x8000_0000
  const I32_MAX: int := 0x7FFF_FFFF
  const TWO_32: int := 0x1_0000_0000

  type i32 = n: int | -0x8000_0000 <= n < 0x8000_0000
  type u32 = n: int | 0 <= n < 0x1_0000_0000

  /** `r as i32` for a finite `f64`: the fractional part is discarded
      (rounding toward zero) and values beyond the range saturate. */
  function TruncI32(r: real): (n: i32)
    // toward zero: the result lies between 0 and r
    ensures 0.0 <= r ==> 0.0 <= n as real <= r
    ensures r <= 0.0 ==> r <= n as real <= 0.0
    // inside the range less than one away from r, so it is the truncation
    ensures I32_MIN as real < r < I32_MAX as real ==> r - 1.0 < n as real < r + 1.0
    // saturation
    ensures r >= I32_MAX as real ==> n == I32_MAX
    ensures r <= I32_MIN as real ==> n == I32_MIN
  {
    if r >= 0x7FFF_FFFF as real then 0x7FFF_FFFF
    else if r <= -0x8000_0000 as real then -0x8000_0000
    else if r >= 0.0 then r.Floor
    else -((-r).Floor)
  }

  /** `a + b` on `i32`, taking overflow as two's-complement wrap-around. */
  function WrapAddI32(a: i32, b: i32): (r: i32)
    ensures I32_MIN <= a + b <= I32_MAX ==> r == a + b
    ensures (a + b - r) % TWO_32 == 0
  {
    var s := a + b;
    if s > 0x7FFF_FFFF then s - 0x1_0000_0000
    else if s < -0x8000_0000 then s + 0x1_0000_0000
    else s
  }

  /** `n as u32` for an `i32`: the same 32 bits read as unsigned. */
  function I32AsU32(n: i32): (r: u32)
    ensures (r - n) % TWO_32 == 0
  {
    if n < 0 then n + 0x1_0000_0000 else n
  }

  /** Adding in `i32` and then reading the bits as `u32` is addition modulo 2^32. */
  lemma WrapThenU32IsMod(a: i32, b: i32)
    ensures I32AsU32(WrapAddI32(a, b)) == (a + b) % TWO_32
  {
    var s := a + b;
    if s > I32_MAX {
      assert WrapAddI32(a, b) == s - TWO_32 < 0;
      assert s % TWO_32 == s;
    } else if s < I32_MIN {
      assert WrapAddI32(a, b) == s + TWO_32;
      assert s % TWO_32 == s + TWO_32;
    } else if s < 0 {
      assert s % TWO_32 == s + TWO_32;
    } else {
      assert s % TWO_32 == s;
    }
  }
}
