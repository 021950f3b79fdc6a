/** Machine types of the hello protection domain's C code. */
module CTypes {
  /** 2^64: one past the largest `uint64_t` (and `seL4_Word` on AArch64). */
  const U64_LIMIT: nat := 0x1_0000_0000_0000_0000

  /** 2^32: one past the largest `uint32_t`. */
  const U32_LIMIT: nat := 0x1_0000_0000

  /** An unsigned 64-bit value. */
  type U64 = x: nat | x < U64_LIMIT

  /** A Microkit channel identifier (`microkit_channel`). */
  type Channel = nat
}
