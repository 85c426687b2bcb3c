/** The program's accounts as one object and its fifteen instruction handlers as methods that
    update them in place. Each handler runs its checks in the order of the source and returns the
    first failure, leaving every account untouched (a failed Solana transaction is rolled back);
    each is proved to compute exactly the outcome and effect the instruction set specifies for
    it, and to keep `Valid()`. */
module PrefixSystem {
  import opened Primitives
  import opened Constants
  import opened Errors
  import opened Utils
  import opened PrefixAccountState
  import opened FeeRegistryState
  import opened VerifiersListState
  import opened Lamports
  import opened Events
  import Spec = LedgerSpec

  class Ledger {
    /** Address of the treasury escrow (fixed by its seeds). */
    const treasury: Pubkey
    /** Whether `initialize` has created the fee registry, the roster and the treasury. */
    var initialized: bool
    var registry: FeeRegistry
    var roster: VerifiersList
    /** The program that owns the treasury account. */
    var treasuryOwner: Pubkey
    /** The prefix record accounts, by the prefix in their address. */
    var prefixes: map<string, PrefixAccount>
    var balances: Balances
    /** Events emitted so far. */
    var log: seq<Event>

    ghost function Snapshot(): Spec.State
      reads this
    {
      Spec.State(initialized, registry, roster, treasury, treasuryOwner, prefixes, balances, log)
    }

    ghost predicate Valid()
      reads this
    {
      Spec.Inv(Snapshot())
    }

    /** A cluster on which the program is deployed but not yet initialised. */
    constructor (treasury: Pubkey, balances: Balances)
      ensures Valid() && Snapshot() == Spec.InitialState(treasury, balances)
    {
      this.treasury := treasury;
      initialized := false;
      registry := FeeRegistry(ZERO_HASH, 0, false, 0, 0);
      roster := VerifiersList(ZERO_HASH, [], 0, 0);
      treasuryOwner := SYSTEM_PROGRAM_ID;
      prefixes := map[];
      this.balances := balances;
      log := [];
    }

    // ------------------------------------------------------------ bootstrap

    method Initialize(payer: Pubkey, adminKey: Pubkey, initialFee: u64, now: int) returns (r: Outcome)
      requires Valid()
      modifies this
      ensures Valid()
      ensures r == Spec.InitializeOutcome(old(Snapshot()), payer)
      ensures r.Pass? ==> Snapshot() == Spec.InitializeEffect(old(Snapshot()), payer, adminKey, initialFee, now)
      ensures r.Fail? ==> unchanged(this)
    {
      if initialized {
        return Fail(AccountAlreadyInUse);
      }
      var rent := Spec.RentTopUp(Balance(balances, treasury));
      if Balance(balances, payer) < rent {
        return Fail(InsufficientLamports);
      }
      initialized := true;
      registry := FeeRegistry(adminKey, initialFee, false, now, now);
      roster := VerifiersList(adminKey, [], now, now);
      balances := Transfer(balances, payer, treasury, rent);
      treasuryOwner := PROGRAM_ID;
      log := log + [FeeUpdated(adminKey, 0, initialFee, now)];
      r := Pass;
      Spec.InitializePreservesInv(old(Snapshot()), payer, adminKey, initialFee, now);
    }

    // ------------------------------------------------------------ prefix lifecycle

    method SubmitPrefixWithFee(owner: Pubkey, prefix: string, uri: string, hash: Hash32,
                               keys: seq<Pubkey>, instructions: seq<Instruction>, now: int)
      returns (r: Outcome)
      requires Valid()
      modifies this
      ensures Valid()
      ensures r == Spec.SubmitOutcome(old(Snapshot()), owner, prefix, uri, hash, keys, instructions)
      ensures r.Pass? ==> Snapshot() == Spec.SubmitEffect(old(Snapshot()), owner, prefix, uri, hash, keys, now)
      ensures r.Fail? ==> unchanged(this)
    {
      if !initialized {
        return Fail(AccountNotInitialized);
      }
      if prefix in prefixes {
        return Fail(AccountAlreadyInUse);
      }
      if registry.pause {
        return Fail(Program(FeeOperationsPaused));
      }
      var normalized := NormalizePrefix(prefix);
      if normalized.Err? {
        return Fail(Program(normalized.error));
      }
      if prefix != normalized.value {
        return Fail(Program(InvalidPrefixFormat));
      }
      var metadata := ValidateMetadata(uri, hash);
      if metadata.Err? {
        return Fail(Program(metadata.error));
      }
      if |keys| > MAX_AUTH_KEYS {
        return Fail(Program(AuthorityKeysTooMany));
      }
      if treasuryOwner != PROGRAM_ID {
        return Fail(Program(InvalidTreasuryAccount));
      }
      var signature := VerifyEd25519Signature(instructions, owner, hash);
      if signature.Err? {
        return Fail(Program(signature.error));
      }
      var fee := registry.currentFee;
      if fee == 0 {
        return Fail(Program(InsufficientFee));
      }
      if Balance(balances, owner) < fee {
        return Fail(InsufficientLamports);
      }
      balances := Transfer(balances, owner, treasury, fee);
      var record := PrefixAccount(owner, normalized.value, uri, hash, ZERO_HASH, Pending, keys, fee,
                                  now + MAX_EXPIRY_DURATION, now, now);
      prefixes := prefixes[prefix := record];
      log := log + [PrefixSubmitted(normalized.value, owner, hash, uri, fee, now)];
      r := Pass;
      Spec.SubmitPreservesInv(old(Snapshot()), owner, prefix, uri, hash, keys, instructions, now);
    }

    method ApprovePrefix(verifier: Pubkey, prefix: string, refHash: Hash32, now: int) returns (r: Outcome)
      requires Valid()
      modifies this
      ensures Valid()
      ensures r == Spec.ApproveOutcome(old(Snapshot()), verifier, prefix, now)
      ensures r.Pass? ==> Snapshot() == Spec.ApproveEffect(old(Snapshot()), verifier, prefix, refHash, now)
      ensures r.Fail? ==> unchanged(this)
    {
      if !initialized || prefix !in prefixes {
        return Fail(AccountNotInitialized);
      }
      if registry.pause {
        return Fail(Program(FeeOperationsPaused));
      }
      if verifier !in roster.verifiers {
        return Fail(Program(UnauthorizedVerifier));
      }
      var acct := prefixes[prefix];
      if acct.status != Pending {
        return Fail(Program(InvalidPrefixStatus));
      }
      if now > acct.expiryAt {
        return Fail(Program(PrefixExpired));
      }
      acct := acct.(status := Active);
      acct := acct.(refHash := refHash);
      acct := acct.(updatedAt := now);
      prefixes := prefixes[prefix := acct];
      log := log + [PrefixApproved(prefix, verifier, refHash, now)];
      log := log + [PrefixActivated(prefix, acct.owner, |acct.authorityKeys| % 0x100, now)];
      r := Pass;
      Spec.ApprovePreservesInv(old(Snapshot()), verifier, prefix, refHash, now);
    }

    method RejectPrefix(verifier: Pubkey, prefix: string, reason: string, now: int) returns (r: Outcome)
      requires Valid()
      modifies this
      ensures Valid()
      ensures r == Spec.RejectOutcome(old(Snapshot()), verifier, prefix)
      ensures r.Pass? ==> Snapshot() == Spec.RejectEffect(old(Snapshot()), verifier, prefix, reason, now)
      ensures r.Fail? ==> unchanged(this)
    {
      if !initialized || prefix !in prefixes {
        return Fail(AccountNotInitialized);
      }
      if registry.pause {
        return Fail(Program(FeeOperationsPaused));
      }
      if verifier !in roster.verifiers {
        return Fail(Program(UnauthorizedVerifier));
      }
      var acct := prefixes[prefix];
      if acct.status != Pending {
        return Fail(Program(InvalidPrefixStatus));
      }
      acct := acct.(status := Rejected);
      acct := acct.(updatedAt := now);
      prefixes := prefixes[prefix := acct];
      log := log + [PrefixRejected(prefix, verifier, reason, now)];
      r := Pass;
      Spec.RejectPreservesInv(old(Snapshot()), verifier, prefix, reason, now);
    }

    /** The refund moves lamports by direct debit and credit of the program-owned treasury;
        the record is then closed to its owner. */
    method RefundPrefixFee(owner: Pubkey, prefix: string, now: int) returns (r: Outcome)
      requires Valid()
      modifies this
      ensures Valid()
      ensures r == Spec.RefundOutcome(old(Snapshot()), owner, prefix, now)
      ensures r.Pass? ==> Snapshot() == Spec.RefundEffect(old(Snapshot()), owner, prefix, now)
      ensures r.Fail? ==> unchanged(this)
    {
      if !initialized || prefix !in prefixes {
        return Fail(AccountNotInitialized);
      }
      if registry.pause {
        return Fail(Program(FeeOperationsPaused));
      }
      var acct := prefixes[prefix];
      var isRejected := acct.status == Rejected;
      var isExpired := acct.status == Pending && now > acct.expiryAt;
      if !(isRejected || isExpired) {
        return Fail(Program(RefundNotAllowed));
      }
      if owner != acct.owner {
        return Fail(Program(UnauthorizedOwnerAction));
      }
      if treasuryOwner != PROGRAM_ID {
        return Fail(Program(InvalidTreasuryAccount));
      }
      var amount := acct.feePaid;
      if amount == 0 {
        return Fail(Program(RefundNotAllowed));
      }
      if Balance(balances, treasury) < amount {
        return Fail(Program(InsufficientTreasuryBalance));
      }
      balances := Transfer(balances, treasury, owner, amount);  // direct debit, then credit
      log := log + [PrefixRefunded(acct.prefix, acct.owner, amount, now)];
      prefixes := prefixes - {prefix};
      if Balance(balances, treasury) == 0 {
        treasuryOwner := SYSTEM_PROGRAM_ID;  // the runtime deletes the emptied treasury
      }
      r := Pass;
      assert Snapshot() == Spec.RefundEffect(old(Snapshot()), owner, prefix, now);
      Spec.RefundPreservesInv(old(Snapshot()), owner, prefix, now);
    }

    method UpdatePrefixMetadata(owner: Pubkey, prefix: string, uri: string, hash: Hash32,
                                instructions: seq<Instruction>, now: int) returns (r: Outcome)
      requires Valid()
      modifies this
      ensures Valid()
      ensures r == Spec.UpdateMetadataOutcome(old(Snapshot()), owner, prefix, uri, hash, instructions)
      ensures r.Pass? ==> Snapshot() == Spec.UpdateMetadataEffect(old(Snapshot()), prefix, uri, hash, now)
      ensures r.Fail? ==> unchanged(this)
    {
      if prefix !in prefixes {
        return Fail(AccountNotInitialized);
      }
      var acct := prefixes[prefix];
      if owner != acct.owner {
        return Fail(Program(UnauthorizedOwnerAction));
      }
      if acct.status == Rejected {
        return Fail(Program(InvalidPrefixStatus));
      }
      var metadata := ValidateMetadata(uri, hash);
      if metadata.Err? {
        return Fail(Program(metadata.error));
      }
      var signature := VerifyEd25519Signature(instructions, owner, hash);
      if signature.Err? {
        return Fail(Program(signature.error));
      }
      var oldHash := acct.metadataHash;
      acct := acct.(metadataUri := uri);
      acct := acct.(metadataHash := hash);
      if acct.status == Active {
        acct := acct.(status := Pending);
        acct := acct.(refHash := ZERO_HASH);
      }
      acct := acct.(updatedAt := now);
      prefixes := prefixes[prefix := acct];
      log := log + [PrefixMetadataUpdated(acct.prefix, acct.owner, oldHash, acct.metadataHash, now)];
      r := Pass;
      Spec.UpdateMetadataPreservesInv(old(Snapshot()), owner, prefix, uri, hash, instructions, now);
    }

    method UpdatePrefixAuthority(owner: Pubkey, prefix: string, keys: seq<Pubkey>, now: int)
      returns (r: Outcome)
      requires Valid()
      modifies this
      ensures Valid()
      ensures r == Spec.UpdateAuthorityOutcome(old(Snapshot()), owner, prefix, keys)
      ensures r.Pass? ==> Snapshot() == Spec.UpdateAuthorityEffect(old(Snapshot()), prefix, keys, now)
      ensures r.Fail? ==> unchanged(this)
    {
      if prefix !in prefixes {
        return Fail(AccountNotInitialized);
      }
      if |keys| > MAX_AUTH_KEYS {
        return Fail(Program(AuthorityKeysTooMany));
      }
      var acct := prefixes[prefix];
      if owner != acct.owner {
        return Fail(Program(UnauthorizedOwnerAction));
      }
      if acct.status == Rejected {
        return Fail(Program(InvalidPrefixStatus));
      }
      acct := acct.(authorityKeys := keys);
      acct := acct.(updatedAt := now);
      prefixes := prefixes[prefix := acct];
      log := log + [PrefixAuthorityUpdated(acct.prefix, acct.owner, acct.authorityKeys, keys, now)];
      r := Pass;
      Spec.UpdateAuthorityPreservesInv(old(Snapshot()), owner, prefix, keys, now);
    }

    method DeactivatePrefix(admin: Pubkey, prefix: string, now: int) returns (r: Outcome)
      requires Valid()
      modifies this
      ensures Valid()
      ensures r == Spec.DeactivateOutcome(old(Snapshot()), admin, prefix)
      ensures r.Pass? ==> Snapshot() == Spec.DeactivateEffect(old(Snapshot()), admin, prefix, now)
      ensures r.Fail? ==> unchanged(this)
    {
      if !initialized || prefix !in prefixes {
        return Fail(AccountNotInitialized);
      }
      if admin != registry.admin {
        return Fail(Program(UnauthorizedAdmin));
      }
      if prefixes[prefix].status != Active {
        return Fail(Program(InvalidPrefixStatus));
      }
      var acct := prefixes[prefix];
      acct := acct.(status := Inactive);
      acct := acct.(updatedAt := now);
      prefixes := prefixes[prefix := acct];
      log := log + [PrefixDeactivated(prefix, admin, now)];
      r := Pass;
      Spec.DeactivatePreservesInv(old(Snapshot()), admin, prefix, now);
    }

    method ReactivatePrefix(admin: Pubkey, prefix: string, now: int) returns (r: Outcome)
      requires Valid()
      modifies this
      ensures Valid()
      ensures r == Spec.ReactivateOutcome(old(Snapshot()), admin, prefix)
      ensures r.Pass? ==> Snapshot() == Spec.ReactivateEffect(old(Snapshot()), admin, prefix, now)
      ensures r.Fail? ==> unchanged(this)
    {
      if !initialized || prefix !in prefixes {
        return Fail(AccountNotInitialized);
      }
      if admin != registry.admin {
        return Fail(Program(UnauthorizedAdmin));
      }
      if prefixes[prefix].status != Inactive {
        return Fail(Program(InvalidPrefixStatus));
      }
      var acct := prefixes[prefix];
      acct := acct.(status := Active);
      acct := acct.(updatedAt := now);
      prefixes := prefixes[prefix := acct];
      log := log + [PrefixReactivated(prefix, admin, now)];
      r := Pass;
      Spec.ReactivatePreservesInv(old(Snapshot()), admin, prefix, now);
    }

    /** `signer` is the transaction's new-owner signer, `admin` the authorising signer. */
    method RecoverPrefixOwnerWithFee(signer: Pubkey, admin: Pubkey, prefix: string, newOwner: Pubkey,
                                     now: int) returns (r: Outcome)
      requires Valid()
      modifies this
      ensures Valid()
      ensures r == Spec.RecoverOutcome(old(Snapshot()), signer, admin, prefix, newOwner)
      ensures r.Pass? ==> Snapshot() == Spec.RecoverEffect(old(Snapshot()), signer, prefix, newOwner, now)
      ensures r.Fail? ==> unchanged(this)
    {
      if !initialized || prefix !in prefixes {
        return Fail(AccountNotInitialized);
      }
      if admin != registry.admin {
        return Fail(Program(UnauthorizedAdmin));
      }
      if registry.pause {
        return Fail(Program(FeeOperationsPaused));
      }
      if signer != newOwner {
        return Fail(Program(UnauthorizedOwnerAction));
      }
      var fee := registry.currentFee;
      if fee == 0 {
        return Fail(Program(InsufficientFee));
      }
      if Balance(balances, signer) < fee {
        return Fail(Program(InsufficientFee));
      }
      balances := Transfer(balances, signer, treasury, fee);
      var acct := prefixes[prefix];
      var oldOwner := acct.owner;
      acct := acct.(owner := newOwner);
      acct := acct.(updatedAt := now);
      prefixes := prefixes[prefix := acct];
      log := log + [PrefixOwnerRecovered(prefix, oldOwner, newOwner, fee, now)];
      r := Pass;
      Spec.RecoverPreservesInv(old(Snapshot()), signer, admin, prefix, newOwner, now);
    }

    // ------------------------------------------------------------ admin operations

    method UpdateFee(admin: Pubkey, newFee: u64, now: int) returns (r: Outcome)
      requires Valid()
      modifies this
      ensures Valid()
      ensures r == Spec.AdminOutcome(old(Snapshot()), admin)
      ensures r.Pass? ==> Snapshot() == Spec.UpdateFeeEffect(old(Snapshot()), admin, newFee, now)
      ensures r.Fail? ==> unchanged(this)
    {
      if !initialized {
        return Fail(AccountNotInitialized);
      }
      if admin != registry.admin {
        return Fail(Program(UnauthorizedAdmin));
      }
      var oldFee := registry.currentFee;
      registry := registry.(currentFee := newFee);
      registry := registry.(updatedAt := now);
      log := log + [FeeUpdated(admin, oldFee, newFee, now)];
      r := Pass;
    }

    method SetPause(admin: Pubkey, pause: bool, now: int) returns (r: Outcome)
      requires Valid()
      modifies this
      ensures Valid()
      ensures r == Spec.AdminOutcome(old(Snapshot()), admin)
      ensures r.Pass? ==> Snapshot() == Spec.SetPauseEffect(old(Snapshot()), pause, now)
      ensures r.Fail? ==> unchanged(this)
    {
      if !initialized {
        return Fail(AccountNotInitialized);
      }
      if admin != registry.admin {
        return Fail(Program(UnauthorizedAdmin));
      }
      registry := registry.(pause := pause);
      registry := registry.(updatedAt := now);
      r := Pass;
    }

    /** Pushing onto a full roster makes the account too small to serialize on exit. */
    method AddVerifier(admin: Pubkey, verifier: Pubkey, now: int) returns (r: Outcome)
      requires Valid()
      modifies this
      ensures Valid()
      ensures r == Spec.AddVerifierOutcome(old(Snapshot()), admin, verifier)
      ensures r.Pass? ==> Snapshot() == Spec.AddVerifierEffect(old(Snapshot()), admin, verifier, now)
      ensures r.Fail? ==> unchanged(this)
    {
      if !initialized {
        return Fail(AccountNotInitialized);
      }
      if admin != registry.admin {
        return Fail(Program(UnauthorizedAdmin));
      }
      if verifier in roster.verifiers {
        return Fail(Program(InvalidPrefixStatus));
      }
      var updated := roster.(verifiers := roster.verifiers + [verifier]);
      updated := updated.(updatedAt := now);
      if VerifiersListState.SerializedSize(updated) > VerifiersListState.Space(MAX_VERIFIERS) {
        return Fail(AccountDidNotSerialize);
      }
      roster := updated;
      log := log + [VerifierAdded(admin, verifier, now)];
      r := Pass;
      Spec.AddVerifierPreservesInv(old(Snapshot()), admin, verifier, now);
    }

    method RemoveVerifier(admin: Pubkey, verifier: Pubkey, now: int) returns (r: Outcome)
      requires Valid()
      modifies this
      ensures Valid()
      ensures r == Spec.RemoveVerifierOutcome(old(Snapshot()), admin, verifier)
      ensures r.Pass? ==> Snapshot() == Spec.RemoveVerifierEffect(old(Snapshot()), admin, verifier, now)
      ensures r.Fail? ==> unchanged(this)
    {
      if !initialized {
        return Fail(AccountNotInitialized);
      }
      if admin != registry.admin {
        return Fail(Program(UnauthorizedAdmin));
      }
      var pos := Position(roster.verifiers, verifier);
      if pos.None? {
        return Fail(Program(UnauthorizedVerifier));
      }
      roster := roster.(verifiers := RemoveAt(roster.verifiers, pos.value));
      roster := roster.(updatedAt := now);
      log := log + [VerifierRemoved(admin, verifier, now)];
      r := Pass;
      Spec.RemoveVerifierPreservesInv(old(Snapshot()), admin, verifier, now);
    }

    /** `toAccount` is the destination account passed to the instruction, `to` the argument. */
    method WithdrawTreasury(admin: Pubkey, toAccount: Pubkey, amount: u64, to: Pubkey, now: int)
      returns (r: Outcome)
      requires Valid()
      modifies this
      ensures Valid()
      ensures r == Spec.WithdrawOutcome(old(Snapshot()), admin, toAccount, amount, to)
      ensures r.Pass? ==> Snapshot() == Spec.WithdrawEffect(old(Snapshot()), admin, amount, to, now)
      ensures r.Fail? ==> unchanged(this)
    {
      if !initialized {
        return Fail(AccountNotInitialized);
      }
      if admin != registry.admin {
        return Fail(Program(UnauthorizedAdmin));
      }
      if registry.pause {
        return Fail(Program(FeeOperationsPaused));
      }
      if treasuryOwner != PROGRAM_ID {
        return Fail(Program(InvalidTreasuryAccount));
      }
      if Balance(balances, treasury) < amount {
        return Fail(Program(InsufficientTreasuryBalance));
      }
      if toAccount != to {
        return Fail(Program(InvalidTreasuryAccount));
      }
      balances := Transfer(balances, treasury, toAccount, amount);  // direct debit, then credit
      log := log + [TreasuryWithdraw(admin, to, amount, now)];
      if Balance(balances, treasury) == 0 {
        treasuryOwner := SYSTEM_PROGRAM_ID;  // the runtime deletes the emptied treasury
      }
      r := Pass;
    }
  }
}
