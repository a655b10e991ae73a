/** Bytes and the range of 64-bit lengths. */
module Bytes {
  type byte = x: int | 0 <= x < 256
  type bytes = seq<byte>

  const U64 := 0x1_0000_0000_0000_0000
}
