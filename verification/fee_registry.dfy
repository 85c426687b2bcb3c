/** The fee registry singleton: admin identity, current fee and pause flag. */
module FeeRegistryState {
  import opened Primitives
  import opened Constants

  /** Process-wide fee settings. (The PDA bump byte is not modelled.) */
  datatype FeeRegistry = FeeRegistry(
    admin: Pubkey,
    currentFee: u64,
    pause: bool,
    createdAt: int,
    updatedAt: int)

  /** `FeeRegistry::space`. */
  function Space(): nat
  {
    DISCRIMINATOR_SIZE +
    PUBKEY_SIZE +    // admin
    U64_SIZE +       // current_fee
    BOOL_SIZE +      // pause
    U8_SIZE +        // bump
    I64_SIZE +       // created_at
    I64_SIZE         // updated_at
  }

  /** Borsh size of a stored registry: every field has a fixed width. */
  function SerializedSize(r: FeeRegistry): nat
  {
    DISCRIMINATOR_SIZE + |r.admin| + U64_SIZE + BOOL_SIZE + U8_SIZE + I64_SIZE + I64_SIZE
  }

  /** The allocation is 66 bytes and counts the discriminator and each field exactly once. */
  lemma SpaceIsExact(r: FeeRegistry)
    ensures Space() == 66
    ensures SerializedSize(r) == Space()
  {
  }
}
