/** The per-prefix registration record and the account size reserved for it. */
module PrefixAccountState {
  import opened Primitives
  import opened Constants
  import opened Utils

  /** Lifecycle states of a registration. */
  datatype PrefixStatus = Pending | Active | Rejected | Inactive

  /** One registration record, stored at the address derived from its prefix.
      (The PDA bump byte is not modelled.) */
  datatype PrefixAccount = PrefixAccount(
    owner: Pubkey,
    prefix: string,          // normalized key used for the address
    metadataUri: string,
    metadataHash: Hash32,
    refHash: Hash32,         // verifier's reference hash, all zero until approved
    status: PrefixStatus,
    authorityKeys: seq<Pubkey>,
    feePaid: u64,
    expiryAt: int,
    createdAt: int,
    updatedAt: int)

  /** `PrefixAccount::space`: bytes reserved for a record with the given maxima. */
  function Space(maxPrefixLen: nat, maxUriLen: nat, maxAuthKeys: nat): nat
  {
    DISCRIMINATOR_SIZE +
    PUBKEY_SIZE +
    STRING_PREFIX_SIZE + maxPrefixLen +
    STRING_PREFIX_SIZE + maxUriLen +
    32 +                                   // metadata_hash
    32 +                                   // ref_hash
    1 +                                    // status variant index
    VEC_PREFIX_SIZE + maxAuthKeys * PUBKEY_SIZE +
    U64_SIZE +
    1 + I64_SIZE +                         // expiry_at, sized as an Option<i64>
    I64_SIZE +
    I64_SIZE +
    U8_SIZE
  }

  /** The allocation is 151 fixed bytes plus the variable parts. */
  lemma SpaceClosedForm(p: nat, u: nat, k: nat)
    ensures Space(p, u, k) == 151 + p + u + 32 * k
  {
  }

  /** The allocation used by submission is 738 bytes. */
  lemma SpaceAtLimits()
    ensures Space(MAX_PREFIX_LEN, MAX_URI_LEN, MAX_AUTH_KEYS) == 738
  {
  }

  /** A larger maximum never reserves less space. */
  lemma SpaceMonotonic(p: nat, u: nat, k: nat, p': nat, u': nat, k': nat)
    requires p <= p' && u <= u' && k <= k'
    ensures Space(p, u, k) <= Space(p', u', k')
  {
  }

  /** Borsh size of a stored record (with discriminator and bump), `expiry_at` being a plain i64. */
  function SerializedSize(a: PrefixAccount): nat
  {
    DISCRIMINATOR_SIZE + PUBKEY_SIZE +
    STRING_PREFIX_SIZE + Utf8Len(a.prefix) +
    STRING_PREFIX_SIZE + Utf8Len(a.metadataUri) +
    32 + 32 + 1 +
    VEC_PREFIX_SIZE + |a.authorityKeys| * PUBKEY_SIZE +
    U64_SIZE + I64_SIZE + I64_SIZE + I64_SIZE + U8_SIZE
  }

  /** `space` is exactly one byte more than a record of those dimensions needs, because it
      counts `expiry_at` as an `Option<i64>`. */
  lemma SpaceOneByteOver(a: PrefixAccount)
    ensures Space(Utf8Len(a.prefix), Utf8Len(a.metadataUri), |a.authorityKeys|) == SerializedSize(a) + 1
  {
  }

  /** Every record within the limits fits the account submission allocates. */
  lemma RecordFits(a: PrefixAccount)
    requires Utf8Len(a.prefix) <= MAX_PREFIX_LEN && Utf8Len(a.metadataUri) <= MAX_URI_LEN
    requires |a.authorityKeys| <= MAX_AUTH_KEYS
    ensures SerializedSize(a) < Space(MAX_PREFIX_LEN, MAX_URI_LEN, MAX_AUTH_KEYS)
  {
    SpaceOneByteOver(a);
    SpaceMonotonic(Utf8Len(a.prefix), Utf8Len(a.metadataUri), |a.authorityKeys|,
                   MAX_PREFIX_LEN, MAX_URI_LEN, MAX_AUTH_KEYS);
  }
}
