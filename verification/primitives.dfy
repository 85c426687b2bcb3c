/** Machine-level value types shared by every part of the model. */
module Primitives {

  /** One byte of account or instruction data. */
  type byte = x: int | 0 <= x < 0x100

  /** Rust `u64`, the type of every fee and lamport amount argument. */
  type u64 = x: int | 0 <= x < 0x1_0000_0000_0000_0000

  /** A fixed 32-byte value: a public key or a 32-byte digest. */
  type Bytes32 = s: seq<byte> | |s| == 32
    witness [0, 0, 0, 0, 0, 0, 0, 0, 0, 0, 0, 0, 0, 0, 0, 0,
             0, 0, 0, 0, 0, 0, 0, 0, 0, 0, 0, 0, 0, 0, 0, 0]

  /** An account address or signer key (Solana `Pubkey`). */
  type Pubkey = Bytes32

  /** A `[u8; 32]` digest (metadata hash, verifier reference hash). */
  type Hash32 = Bytes32

  /** `[0u8; 32]`, the reference hash of a record that has not been approved. */
  const ZERO_HASH: Hash32 :=
    [0, 0, 0, 0, 0, 0, 0, 0, 0, 0, 0, 0, 0, 0, 0, 0,
     0, 0, 0, 0, 0, 0, 0, 0, 0, 0, 0, 0, 0, 0, 0, 0]

  datatype Option<T> = None | Some(value: T)
}
