/** The fixed-width Rust integer types the light mutators use, as ranges of `int`. */
module Ints {

  const U8Max: int := 0xFF
  const U32Max: int := 0xFFFF_FFFF
  const U64Max: int := 0xFFFF_FFFF_FFFF_FFFF

  predicate InI16(x: int) { -0x8000 <= x < 0x8000 }
  predicate InI64(x: int) { -0x8000_0000_0000_0000 <= x < 0x8000_0000_0000_0000 }
  predicate InI128(x: int) {
    -0x8000_0000_0000_0000_0000_0000_0000_0000 <= x < 0x8000_0000_0000_0000_0000_0000_0000_0000
  }

  type U8 = x: int | 0 <= x <= U8Max
  type U16 = x: int | 0 <= x < 0x1_0000
  type U32 = x: int | 0 <= x <= U32Max
  type U64 = x: int | 0 <= x <= U64Max
  type I16 = x: int | InI16(x)
  type I64 = x: int | InI64(x)
  type I128 = x: int | InI128(x)

  function Max(a: int, b: int): int { if a < b then b else a }
  function Min(a: int, b: int): int { if a < b then a else b }

  /**
   * `x.max(lo).min(hi)`, the clamp every mutator uses. Unlike `Ord::clamp` it
   * does not panic when `lo > hi`: the upper bound, applied last, wins.
   */
  function Clamp(x: int, lo: int, hi: int): (r: int)
    ensures r <= hi
    ensures lo <= hi ==> lo <= r
    ensures lo <= x <= hi ==> r == x
    ensures x < lo && lo <= hi ==> r == lo
    ensures hi < x ==> r == hi
    ensures hi < lo ==> r == hi
  {
    Min(Max(x, lo), hi)
  }
}
