/** Machine integer ranges of the Rust source, as subset types of the unbounded `int`. */
module Ints {
  type byte = x: int | 0 <= x < 0x100
  type u16 = x: int | 0 <= x < 0x1_0000
  type i16 = x: int | -0x8000 <= x < 0x8000
  type i32 = x: int | -0x8000_0000 <= x < 0x8000_0000
  type i64 = x: int | -0x8000_0000_0000_0000 <= x < 0x8000_0000_0000_0000

  const U16_MAX: int := 0xFFFF
  const I16_MIN: int := -0x8000
  const I16_MAX: int := 0x7FFF
}
