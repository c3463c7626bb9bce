/**
 * Definitions shared by the arch-layer modules.
 */
module Common {

  /** A value or the C null pointer / "no value". */
  datatype Option<T> = None | Some(value: T)

  /** A `uint16_t` value, as an integer. */
  type U16 = x: int | 0 <= x < 0x1_0000

  /** 2^32: `uint32_t` arithmetic is taken modulo this. */
  const U32Modulus: int := 0x1_0000_0000

  /** A `uint32_t` value, as an integer. */
  type U32 = x: int | 0 <= x < U32Modulus

  /** 2^64: `uint64_t` arithmetic is taken modulo this. */
  const U64Modulus: int := 0x1_0000_0000_0000_0000

  /** A `uint64_t` value, as an integer. */
  type U64 = x: int | 0 <= x < U64Modulus

  /** `PAGE_SIZE` (include/arch/x86-64/config.h): 1 << 12. */
  const PageSize: nat := 0x1000
}
