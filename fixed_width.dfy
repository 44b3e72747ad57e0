/**
 * The fixed-width integer types of the C++ sources, as subset types of `int`.
 * Wrap-around and truncation are written out where an operation needs them.
 */
module FixedWidth {

  type byte = x: int | 0 <= x < 0x100
  type uint16 = x: int | 0 <= x < 0x1_0000
  type uint32 = x: int | 0 <= x < 0x1_0000_0000
  type int32 = x: int | -0x8000_0000 <= x < 0x8000_0000
}
