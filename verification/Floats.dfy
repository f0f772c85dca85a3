/** IEEE 754 values as bit patterns; only the order facts the codecs test. */
module Floats {
  const ONE_64 := 0x3FF0_0000_0000_0000
  const NEGATIVE_ZERO_64 := 0x8000_0000_0000_0000
  const NEGATIVE_ZERO_32 := 0x8000_0000

  /** A finite double in 0.0..=1.0. Bit patterns of nonnegative doubles are ordered
      like their values, and negative zero equals zero. */
  predicate Unit64(bits: nat) {
    bits <= ONE_64 || bits == NEGATIVE_ZERO_64
  }

  /** A single is finite unless its exponent field is all ones. */
  predicate Finite32(bits: nat) {
    bits / 0x80_0000 % 256 != 255
  }

  predicate Zero32(bits: nat) {
    bits == 0 || bits == NEGATIVE_ZERO_32
  }
}
