/** Types shared by several modules. */
module Wrappers {

  datatype Option<+T> = None | Some(value: T)

  type Byte = x: int | 0 <= x < 256

  // First numbers that do not fit 32 and 64 bits.
  const U32: nat := 0x1_0000_0000
  const U64: nat := 0x1_0000_0000_0000_0000
}
