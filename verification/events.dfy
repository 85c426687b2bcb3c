/** The events the handlers emit, field for field (the submitted record's address is not modelled). */
module Events {
  import opened Primitives

  datatype Event =
    | PrefixSubmitted(prefix: string, owner: Pubkey, metadataHash: Hash32, metadataUri: string,
                      feePaid: u64, createdAt: int)
    | PrefixApproved(prefix: string, verifier: Pubkey, refHash: Hash32, approvedAt: int)
    | PrefixRejected(prefix: string, verifier: Pubkey, reason: string, rejectedAt: int)
    | PrefixActivated(prefix: string, owner: Pubkey, authorityKeysLen: byte, activatedAt: int)
    | PrefixMetadataUpdated(prefix: string, owner: Pubkey, oldMetadataHash: Hash32,
                            newMetadataHash: Hash32, updatedAt: int)
    | PrefixAuthorityUpdated(prefix: string, owner: Pubkey, oldAuthorityKeys: seq<Pubkey>,
                             newAuthorityKeys: seq<Pubkey>, updatedAt: int)
    | PrefixRefunded(prefix: string, owner: Pubkey, amount: u64, refundedAt: int)
    | TreasuryWithdraw(admin: Pubkey, to: Pubkey, amount: u64, withdrawnAt: int)
    | VerifierAdded(admin: Pubkey, verifier: Pubkey, addedAt: int)
    | VerifierRemoved(admin: Pubkey, verifier: Pubkey, removedAt: int)
    | FeeUpdated(admin: Pubkey, oldFee: u64, newFee: u64, updatedAt: int)
    | PrefixDeactivated(prefix: string, admin: Pubkey, at: int)
    | PrefixReactivated(prefix: string, admin: Pubkey, at: int)
    | PrefixOwnerRecovered(prefix: string, oldOwner: Pubkey, newOwner: Pubkey, feePaid: u64, updatedAt: int)
}
