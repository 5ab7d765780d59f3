/** The fixed-width unsigned integer types the source declares its fields with. */
module Ints {
  const U32_LIMIT: nat := 0x1_0000_0000
  const U64_LIMIT: nat := 0x1_0000_0000_0000_0000

  type Uint32 = n: nat | n < U32_LIMIT
  type Uint64 = n: nat | n < U64_LIMIT
}
