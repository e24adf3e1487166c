/** Fixed-width machine integers of the Rust code, as bounded subsets of `int`. */
module Ints {

  const U8_LIMIT: int := 0x100
  const U32_LIMIT: int := 0x1_0000_0000
  const U64_LIMIT: int := 0x1_0000_0000_0000_0000
  const U128_LIMIT: int := 0x1_0000_0000_0000_0000_0000_0000_0000_0000

  const U32_MAX: int := U32_LIMIT - 1
  const U64_MAX: int := U64_LIMIT - 1
  const U128_MAX: int := U128_LIMIT - 1
  const I64_MAX: int := 0x7FFF_FFFF_FFFF_FFFF
  const I64_MIN: int := -0x8000_0000_0000_0000

  type U8 = x: int | 0 <= x < U8_LIMIT
  type U16 = x: int | 0 <= x < 0x1_0000
  type U32 = x: int | 0 <= x < U32_LIMIT
  type U64 = x: int | 0 <= x < U64_LIMIT
  type U128 = x: int | 0 <= x < U128_LIMIT
  type I64 = x: int | I64_MIN <= x <= I64_MAX

  /** `u128::saturating_add`: the exact sum, clamped at the maximum. */
  function SaturatingAddU128(a: U128, b: U128): (r: U128)
    ensures a <= r && b <= r && r <= a + b
    ensures r == a + b || r == U128_MAX
  {
    if a + b <= U128_MAX then a + b else U128_MAX
  }

  /** `u64::saturating_add`. */
  function SaturatingAddU64(a: U64, b: U64): (r: U64)
    ensures a <= r && b <= r && r <= a + b
    ensures r == a + b || r == U64_MAX
  {
    if a + b <= U64_MAX then a + b else U64_MAX
  }

  /** `u64::saturating_sub`: the difference, or 0 when it would be negative. */
  function SaturatingSubU64(a: U64, b: U64): (r: U64)
    ensures a - b <= r <= a
    ensures r == a - b || r == 0
  {
    if b <= a then a - b else 0
  }

  /** `u64::saturating_mul`. */
  function SaturatingMulU64(a: U64, b: U64): (r: U64)
    ensures r <= a * b
    ensures r == a * b || r == U64_MAX
  {
    if a * b <= U64_MAX then a * b else U64_MAX
  }

  function Min(a: int, b: int): (r: int)
    ensures r <= a && r <= b && (r == a || r == b)
  {
    if a <= b then a else b
  }

  /** The saturating sum is the exact sum clamped at the maximum. */
  lemma SaturatingAddU128IsMin(a: U128, b: U128)
    ensures SaturatingAddU128(a, b) == Min(a + b, U128_MAX)
  {
  }
}
