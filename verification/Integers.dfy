// Machine integers of the Rust code.
module Integers {
  const U32_MAX: nat := 0xFFFF_FFFF
  const U64_MAX: nat := 0xFFFF_FFFF_FFFF_FFFF
  const I64_MAX: nat := 0x7FFF_FFFF_FFFF_FFFF

  type U32 = n: nat | n <= 0xFFFF_FFFF
  type U64 = n: nat | n <= 0xFFFF_FFFF_FFFF_FFFF
  type NonZeroU32 = n: nat | 1 <= n <= 0xFFFF_FFFF witness 1

  /** saturating_add(1). */
  function SaturatingNext(n: U32): U32 {
    if n == U32_MAX then n else n + 1
  }
}
