/** Limits, seeds, sizing constants and the program identities the handlers compare against. */
module Constants {
  import opened Primitives

  // Seed strings of the program-derived addresses
  const FEE_REGISTRY_SEED: string := "fee_registry"
  const VERIFIERS_SEED: string := "verifiers"
  const TREASURY_SEED: string := "treasury"
  const PREFIX_SEED: string := "prefix"

  // Domain limits
  const MAX_PREFIX_LEN: nat := 12
  const MIN_PREFIX_LEN: nat := 3
  const MAX_URI_LEN: nat := 255
  const MAX_AUTH_KEYS: nat := 10
  const MAX_VERIFIERS: nat := 256

  /** Lifetime of a Pending record before approval is refused: fourteen days in seconds. */
  const MAX_EXPIRY_DURATION: nat := 14 * 24 * 60 * 60

  // Borsh sizes used by the `space` helpers
  const DISCRIMINATOR_SIZE: nat := 8
  const PUBKEY_SIZE: nat := 32
  const BOOL_SIZE: nat := 1
  const U8_SIZE: nat := 1
  const U64_SIZE: nat := 8
  const I64_SIZE: nat := 8
  const VEC_PREFIX_SIZE: nat := 4
  const STRING_PREFIX_SIZE: nat := 4

  /** `ed25519_program::ID` (base58 Ed25519SigVerify111111111111111111111111111). */
  const ED25519_PROGRAM_ID: Pubkey :=
    [0x03, 0x7d, 0x46, 0xd6, 0x7c, 0x93, 0xfb, 0xbe, 0x12, 0xf9, 0x42, 0x8f, 0x83, 0x8d, 0x40, 0xff,
     0x05, 0x70, 0x74, 0x49, 0x27, 0xf4, 0x8a, 0x64, 0xfc, 0xca, 0x70, 0x44, 0x80, 0x00, 0x00, 0x00]

  /** The system program's id, `11111111111111111111111111111111` in base58: all zero bytes. */
  const SYSTEM_PROGRAM_ID: Pubkey := ZERO_HASH

  /** The prefix-system program's own id (base58 otac5xyDhtoUWRXi36R9QN8Q9rW89QNJfUQDrZyiidh). */
  const PROGRAM_ID: Pubkey :=
    [0x0c, 0x03, 0x09, 0xc9, 0x26, 0xe7, 0x9e, 0x93, 0x59, 0x9d, 0x0c, 0x12, 0x4b, 0xf1, 0x38, 0x12,
     0xa4, 0x1f, 0xcc, 0x75, 0xe2, 0x21, 0xb8, 0xa8, 0x12, 0x46, 0x68, 0xc2, 0xd1, 0x83, 0x98, 0x3c]
}
