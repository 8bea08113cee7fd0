/** The integer widths of the source that matter here. */
module Integers {
  const INT64_MIN := -0x8000_0000_0000_0000
  const INT64_MAX := 0x7FFF_FFFF_FFFF_FFFF
  const TWO_TO_64 := 0x1_0000_0000_0000_0000

  type Int64 = n: int | INT64_MIN <= n <= INT64_MAX
  type UInt64 = n: int | 0 <= n < TWO_TO_64

  /** An integer of either signedness and any width up to 64 bits. */
  type Integer = n: int | INT64_MIN <= n < TWO_TO_64
}
