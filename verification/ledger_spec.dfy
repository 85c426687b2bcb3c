/** The instruction set as a state machine over a snapshot of every account the program reads
    or writes. For each handler, `XOutcome` is the first failing check in source order (or Pass)
    and `XEffect` is the committed state when every check passes. */
module LedgerSpec {
  import opened Primitives
  import opened Constants
  import opened Errors
  import opened Utils
  import opened PrefixAccountState
  import opened FeeRegistryState
  import opened VerifiersListState
  import opened Lamports
  import opened Events

  /** Everything the program's instructions read or write. */
  datatype State = State(
    initialized: bool,                        // the fee registry, roster and treasury exist
    registry: FeeRegistry,
    roster: VerifiersList,
    treasury: Pubkey,                         // address of the treasury escrow
    treasuryOwner: Pubkey,                    // program that owns the treasury account
    prefixes: map<string, PrefixAccount>,     // record accounts, by the prefix in their address
    balances: Balances,
    log: seq<Event>)

  // ---------------------------------------------------------------- invariant

  /** What holds of every stored record. */
  ghost predicate RecordInv(key: string, a: PrefixAccount)
  {
    && a.prefix == key
    && IsNormalized(key)
    && ValidateMetadata(a.metadataUri, a.metadataHash).Ok?
    && |a.authorityKeys| <= MAX_AUTH_KEYS
    && a.feePaid > 0
    && a.expiryAt == a.createdAt + MAX_EXPIRY_DURATION
  }

  /** What holds of every state the instructions can reach. */
  ghost predicate Inv(s: State)
  {
    && (!s.initialized ==> s.prefixes == map[])
    && (s.initialized ==> s.roster.admin == s.registry.admin)
    && (!s.initialized ==> s.treasuryOwner == SYSTEM_PROGRAM_ID)
    && (s.treasuryOwner == PROGRAM_ID || s.treasuryOwner == SYSTEM_PROGRAM_ID)
    && (s.treasuryOwner == PROGRAM_ID ==> Balance(s.balances, s.treasury) > 0)
    && NoDuplicates(s.roster.verifiers)
    && |s.roster.verifiers| <= MAX_VERIFIERS
    && forall p | p in s.prefixes :: RecordInv(p, s.prefixes[p])
  }

  // ---------------------------------------------------------------- record transitions

  function NewPendingRecord(owner: Pubkey, prefix: string, uri: string, hash: Hash32,
                            keys: seq<Pubkey>, fee: u64, now: int): PrefixAccount
  {
    PrefixAccount(owner, prefix, uri, hash, ZERO_HASH, Pending, keys, fee,
                  now + MAX_EXPIRY_DURATION, now, now)
  }

  function ApprovedRecord(a: PrefixAccount, refHash: Hash32, now: int): PrefixAccount
  {
    a.(status := Active, refHash := refHash, updatedAt := now)
  }

  function RejectedRecord(a: PrefixAccount, now: int): PrefixAccount
  {
    a.(status := Rejected, updatedAt := now)
  }

  function MetadataUpdatedRecord(a: PrefixAccount, uri: string, hash: Hash32, now: int): PrefixAccount
  {
    var b := a.(metadataUri := uri, metadataHash := hash);
    var c := if b.status == Active then b.(status := Pending, refHash := ZERO_HASH) else b;
    c.(updatedAt := now)
  }

  function AuthorityUpdatedRecord(a: PrefixAccount, keys: seq<Pubkey>, now: int): PrefixAccount
  {
    a.(authorityKeys := keys, updatedAt := now)
  }

  function DeactivatedRecord(a: PrefixAccount, now: int): PrefixAccount
  {
    a.(status := Inactive, updatedAt := now)
  }

  function ReactivatedRecord(a: PrefixAccount, now: int): PrefixAccount
  {
    a.(status := Active, updatedAt := now)
  }

  function RecoveredRecord(a: PrefixAccount, newOwner: Pubkey, now: int): PrefixAccount
  {
    a.(owner := newOwner, updatedAt := now)
  }

  /** At the end of a transaction the runtime deletes an account left with no lamports: a
      treasury drained to zero reverts to the system program. */
  function ReapTreasury(s: State): (r: State)
    ensures r == s.(treasuryOwner := r.treasuryOwner)
  {
    if Balance(s.balances, s.treasury) == 0 then s.(treasuryOwner := SYSTEM_PROGRAM_ID) else s
  }

  /** A Pending record may be refunded once `now` is past its expiry. */
  predicate RefundAllowed(a: PrefixAccount, now: int)
  {
    a.status == Rejected || (a.status == Pending && now > a.expiryAt)
  }

  /** Before `initialize`: no registry, roster or records; the treasury address is still owned
      by the system program. */
  function InitialState(treasury: Pubkey, balances: Balances): (s: State)
    ensures Inv(s)
  {
    State(false, FeeRegistry(ZERO_HASH, 0, false, 0, 0), VerifiersList(ZERO_HASH, [], 0, 0),
          treasury, SYSTEM_PROGRAM_ID, map[], balances, [])
  }

  // ---------------------------------------------------------------- initialize

  /** Rent-exempt minimum of an account with no data under the cluster's default rent:
      (128 bytes of account overhead) * 3480 lamports per byte-year * 2 years. */
  const TREASURY_RENT: nat := 890880

  /** What creating the treasury takes from the payer: `init` tops the address up to the
      rent-exempt minimum, and takes nothing when it already holds that much. */
  function RentTopUp(held: nat): (r: nat)
    ensures held + r >= TREASURY_RENT
    ensures r > 0 ==> held + r == TREASURY_RENT
  {
    if held >= TREASURY_RENT then 0 else TREASURY_RENT - held
  }

  function InitializeOutcome(s: State, payer: Pubkey): Outcome
  {
    if s.initialized then Fail(AccountAlreadyInUse)
    else if Balance(s.balances, payer) < RentTopUp(Balance(s.balances, s.treasury)) then Fail(InsufficientLamports)
    else Pass
  }

  function InitializeEffect(s: State, payer: Pubkey, admin: Pubkey, initialFee: u64, now: int): State
    requires RentTopUp(Balance(s.balances, s.treasury)) <= Balance(s.balances, payer)
  {
    s.(initialized := true,
       balances := Transfer(s.balances, payer, s.treasury, RentTopUp(Balance(s.balances, s.treasury))),
       registry := FeeRegistry(admin, initialFee, false, now, now),
       roster := VerifiersList(admin, [], now, now),
       treasuryOwner := PROGRAM_ID,
       log := s.log + [FeeUpdated(admin, 0, initialFee, now)])
  }

  // ---------------------------------------------------------------- submit_prefix_with_fee

  function SubmitOutcome(s: State, owner: Pubkey, prefix: string, uri: string, hash: Hash32,
                         keys: seq<Pubkey>, instructions: seq<Instruction>): Outcome
  {
    if !s.initialized then Fail(AccountNotInitialized)
    else if prefix in s.prefixes then Fail(AccountAlreadyInUse)
    else if s.registry.pause then Fail(Program(FeeOperationsPaused))
    else if NormalizePrefix(prefix).Err? then Fail(Program(NormalizePrefix(prefix).error))
    else if prefix != NormalizePrefix(prefix).value then Fail(Program(InvalidPrefixFormat))
    else if ValidateMetadata(uri, hash).Err? then Fail(Program(ValidateMetadata(uri, hash).error))
    else if |keys| > MAX_AUTH_KEYS then Fail(Program(AuthorityKeysTooMany))
    else if s.treasuryOwner != PROGRAM_ID then Fail(Program(InvalidTreasuryAccount))
    else if !HasSignatureInstruction(instructions, owner, hash) then Fail(Program(InvalidEd25519Signature))
    else if s.registry.currentFee == 0 then Fail(Program(InsufficientFee))
    else if Balance(s.balances, owner) < s.registry.currentFee then Fail(InsufficientLamports)
    else Pass
  }

  function SubmitEffect(s: State, owner: Pubkey, prefix: string, uri: string, hash: Hash32,
                        keys: seq<Pubkey>, now: int): State
    requires s.registry.currentFee <= Balance(s.balances, owner)
  {
    var fee := s.registry.currentFee;
    s.(balances := Transfer(s.balances, owner, s.treasury, fee),
       prefixes := s.prefixes[prefix := NewPendingRecord(owner, prefix, uri, hash, keys, fee, now)],
       log := s.log + [PrefixSubmitted(prefix, owner, hash, uri, fee, now)])
  }

  // ---------------------------------------------------------------- approve_prefix

  function ApproveOutcome(s: State, verifier: Pubkey, prefix: string, now: int): Outcome
  {
    if !s.initialized || prefix !in s.prefixes then Fail(AccountNotInitialized)
    else if s.registry.pause then Fail(Program(FeeOperationsPaused))
    else if verifier !in s.roster.verifiers then Fail(Program(UnauthorizedVerifier))
    else if s.prefixes[prefix].status != Pending then Fail(Program(InvalidPrefixStatus))
    else if now > s.prefixes[prefix].expiryAt then Fail(Program(PrefixExpired))
    else Pass
  }

  function ApproveEffect(s: State, verifier: Pubkey, prefix: string, refHash: Hash32, now: int): State
    requires prefix in s.prefixes
  {
    var a := ApprovedRecord(s.prefixes[prefix], refHash, now);
    s.(prefixes := s.prefixes[prefix := a],
       log := s.log + [PrefixApproved(prefix, verifier, refHash, now),
                       PrefixActivated(prefix, a.owner, |a.authorityKeys| % 0x100, now)])
  }

  // ---------------------------------------------------------------- reject_prefix

  function RejectOutcome(s: State, verifier: Pubkey, prefix: string): Outcome
  {
    if !s.initialized || prefix !in s.prefixes then Fail(AccountNotInitialized)
    else if s.registry.pause then Fail(Program(FeeOperationsPaused))
    else if verifier !in s.roster.verifiers then Fail(Program(UnauthorizedVerifier))
    else if s.prefixes[prefix].status != Pending then Fail(Program(InvalidPrefixStatus))
    else Pass
  }

  function RejectEffect(s: State, verifier: Pubkey, prefix: string, reason: string, now: int): State
    requires prefix in s.prefixes
  {
    s.(prefixes := s.prefixes[prefix := RejectedRecord(s.prefixes[prefix], now)],
       log := s.log + [PrefixRejected(prefix, verifier, reason, now)])
  }

  // ---------------------------------------------------------------- update_prefix_metadata

  function UpdateMetadataOutcome(s: State, owner: Pubkey, prefix: string, uri: string, hash: Hash32,
                                 instructions: seq<Instruction>): Outcome
  {
    if prefix !in s.prefixes then Fail(AccountNotInitialized)
    else if owner != s.prefixes[prefix].owner then Fail(Program(UnauthorizedOwnerAction))
    else if s.prefixes[prefix].status == Rejected then Fail(Program(InvalidPrefixStatus))
    else if ValidateMetadata(uri, hash).Err? then Fail(Program(ValidateMetadata(uri, hash).error))
    else if !HasSignatureInstruction(instructions, owner, hash) then Fail(Program(InvalidEd25519Signature))
    else Pass
  }

  function UpdateMetadataEffect(s: State, prefix: string, uri: string, hash: Hash32, now: int): State
    requires prefix in s.prefixes
  {
    var a := s.prefixes[prefix];
    s.(prefixes := s.prefixes[prefix := MetadataUpdatedRecord(a, uri, hash, now)],
       log := s.log + [PrefixMetadataUpdated(a.prefix, a.owner, a.metadataHash, hash, now)])
  }

  // ---------------------------------------------------------------- update_prefix_authority

  function UpdateAuthorityOutcome(s: State, owner: Pubkey, prefix: string, keys: seq<Pubkey>): Outcome
  {
    if prefix !in s.prefixes then Fail(AccountNotInitialized)
    else if |keys| > MAX_AUTH_KEYS then Fail(Program(AuthorityKeysTooMany))
    else if owner != s.prefixes[prefix].owner then Fail(Program(UnauthorizedOwnerAction))
    else if s.prefixes[prefix].status == Rejected then Fail(Program(InvalidPrefixStatus))
    else Pass
  }

  /** The event's "old" keys are read after the assignment, so they are the new keys. */
  function UpdateAuthorityEffect(s: State, prefix: string, keys: seq<Pubkey>, now: int): State
    requires prefix in s.prefixes
  {
    var a := AuthorityUpdatedRecord(s.prefixes[prefix], keys, now);
    s.(prefixes := s.prefixes[prefix := a],
       log := s.log + [PrefixAuthorityUpdated(a.prefix, a.owner, a.authorityKeys, keys, now)])
  }

  // ---------------------------------------------------------------- deactivate / reactivate

  function DeactivateOutcome(s: State, admin: Pubkey, prefix: string): Outcome
  {
    if !s.initialized || prefix !in s.prefixes then Fail(AccountNotInitialized)
    else if admin != s.registry.admin then Fail(Program(UnauthorizedAdmin))
    else if s.prefixes[prefix].status != Active then Fail(Program(InvalidPrefixStatus))
    else Pass
  }

  function DeactivateEffect(s: State, admin: Pubkey, prefix: string, now: int): State
    requires prefix in s.prefixes
  {
    s.(prefixes := s.prefixes[prefix := DeactivatedRecord(s.prefixes[prefix], now)],
       log := s.log + [PrefixDeactivated(prefix, admin, now)])
  }

  function ReactivateOutcome(s: State, admin: Pubkey, prefix: string): Outcome
  {
    if !s.initialized || prefix !in s.prefixes then Fail(AccountNotInitialized)
    else if admin != s.registry.admin then Fail(Program(UnauthorizedAdmin))
    else if s.prefixes[prefix].status != Inactive then Fail(Program(InvalidPrefixStatus))
    else Pass
  }

  function ReactivateEffect(s: State, admin: Pubkey, prefix: string, now: int): State
    requires prefix in s.prefixes
  {
    s.(prefixes := s.prefixes[prefix := ReactivatedRecord(s.prefixes[prefix], now)],
       log := s.log + [PrefixReactivated(prefix, admin, now)])
  }

  // ---------------------------------------------------------------- refund_prefix_fee

  function RefundOutcome(s: State, owner: Pubkey, prefix: string, now: int): Outcome
  {
    if !s.initialized || prefix !in s.prefixes then Fail(AccountNotInitialized)
    else if s.registry.pause then Fail(Program(FeeOperationsPaused))
    else if !RefundAllowed(s.prefixes[prefix], now) then Fail(Program(RefundNotAllowed))
    else if owner != s.prefixes[prefix].owner then Fail(Program(UnauthorizedOwnerAction))
    else if s.treasuryOwner != PROGRAM_ID then Fail(Program(InvalidTreasuryAccount))
    else if s.prefixes[prefix].feePaid == 0 then Fail(Program(RefundNotAllowed))
    else if Balance(s.balances, s.treasury) < s.prefixes[prefix].feePaid then
      Fail(Program(InsufficientTreasuryBalance))
    else Pass
  }

  /** The fee goes back from the treasury and the record is closed, freeing its address. */
  function RefundEffect(s: State, owner: Pubkey, prefix: string, now: int): State
    requires prefix in s.prefixes && s.prefixes[prefix].feePaid <= Balance(s.balances, s.treasury)
  {
    var a := s.prefixes[prefix];
    ReapTreasury(s.(balances := Transfer(s.balances, s.treasury, owner, a.feePaid),
                    prefixes := s.prefixes - {prefix},
                    log := s.log + [PrefixRefunded(a.prefix, a.owner, a.feePaid, now)]))
  }

  // ---------------------------------------------------------------- recover_prefix_owner_with_fee

  function RecoverOutcome(s: State, signer: Pubkey, admin: Pubkey, prefix: string, newOwner: Pubkey): Outcome
  {
    if !s.initialized || prefix !in s.prefixes then Fail(AccountNotInitialized)
    else if admin != s.registry.admin then Fail(Program(UnauthorizedAdmin))
    else if s.registry.pause then Fail(Program(FeeOperationsPaused))
    else if signer != newOwner then Fail(Program(UnauthorizedOwnerAction))
    else if s.registry.currentFee == 0 then Fail(Program(InsufficientFee))
    else if Balance(s.balances, signer) < s.registry.currentFee then Fail(Program(InsufficientFee))
    else Pass
  }

  function RecoverEffect(s: State, signer: Pubkey, prefix: string, newOwner: Pubkey, now: int): State
    requires prefix in s.prefixes && s.registry.currentFee <= Balance(s.balances, signer)
  {
    var a := s.prefixes[prefix];
    var fee := s.registry.currentFee;
    s.(balances := Transfer(s.balances, signer, s.treasury, fee),
       prefixes := s.prefixes[prefix := RecoveredRecord(a, newOwner, now)],
       log := s.log + [PrefixOwnerRecovered(prefix, a.owner, newOwner, fee, now)])
  }

  // ---------------------------------------------------------------- admin handlers

  /** The admin check shared by update_fee and set_pause (no other check). */
  function AdminOutcome(s: State, admin: Pubkey): Outcome
  {
    if !s.initialized then Fail(AccountNotInitialized)
    else if admin != s.registry.admin then Fail(Program(UnauthorizedAdmin))
    else Pass
  }

  function UpdateFeeEffect(s: State, admin: Pubkey, newFee: u64, now: int): State
  {
    s.(registry := s.registry.(currentFee := newFee, updatedAt := now),
       log := s.log + [FeeUpdated(admin, s.registry.currentFee, newFee, now)])
  }

  /** set_pause emits no event. */
  function SetPauseEffect(s: State, pause: bool, now: int): State
  {
    s.(registry := s.registry.(pause := pause, updatedAt := now))
  }

  function AddVerifierOutcome(s: State, admin: Pubkey, verifier: Pubkey): Outcome
  {
    if !s.initialized then Fail(AccountNotInitialized)
    else if admin != s.registry.admin then Fail(Program(UnauthorizedAdmin))
    else if verifier in s.roster.verifiers then Fail(Program(InvalidPrefixStatus))
    else if VerifiersListState.SerializedSize(s.roster.(verifiers := s.roster.verifiers + [verifier]))
            > VerifiersListState.Space(MAX_VERIFIERS)
    then Fail(AccountDidNotSerialize)
    else Pass
  }

  function AddVerifierEffect(s: State, admin: Pubkey, verifier: Pubkey, now: int): State
  {
    s.(roster := s.roster.(verifiers := s.roster.verifiers + [verifier], updatedAt := now),
       log := s.log + [VerifierAdded(admin, verifier, now)])
  }

  function RemoveVerifierOutcome(s: State, admin: Pubkey, verifier: Pubkey): Outcome
  {
    if !s.initialized then Fail(AccountNotInitialized)
    else if admin != s.registry.admin then Fail(Program(UnauthorizedAdmin))
    else if IndexOf(s.roster.verifiers, verifier).None? then Fail(Program(UnauthorizedVerifier))
    else Pass
  }

  function RemoveVerifierEffect(s: State, admin: Pubkey, verifier: Pubkey, now: int): State
    requires verifier in s.roster.verifiers
  {
    var pos := IndexOf(s.roster.verifiers, verifier).value;
    s.(roster := s.roster.(verifiers := RemoveAt(s.roster.verifiers, pos), updatedAt := now),
       log := s.log + [VerifierRemoved(admin, verifier, now)])
  }

  function WithdrawOutcome(s: State, admin: Pubkey, toAccount: Pubkey, amount: u64, to: Pubkey): Outcome
  {
    if !s.initialized then Fail(AccountNotInitialized)
    else if admin != s.registry.admin then Fail(Program(UnauthorizedAdmin))
    else if s.registry.pause then Fail(Program(FeeOperationsPaused))
    else if s.treasuryOwner != PROGRAM_ID then Fail(Program(InvalidTreasuryAccount))
    else if Balance(s.balances, s.treasury) < amount then Fail(Program(InsufficientTreasuryBalance))
    else if toAccount != to then Fail(Program(InvalidTreasuryAccount))
    else Pass
  }

  function WithdrawEffect(s: State, admin: Pubkey, amount: u64, to: Pubkey, now: int): State
    requires amount <= Balance(s.balances, s.treasury)
  {
    ReapTreasury(s.(balances := Transfer(s.balances, s.treasury, to, amount),
                    log := s.log + [TreasuryWithdraw(admin, to, amount, now)]))
  }

  // ---------------------------------------------------------------- the invariant is kept

  lemma InitializePreservesInv(s: State, payer: Pubkey, admin: Pubkey, initialFee: u64, now: int)
    requires Inv(s) && InitializeOutcome(s, payer) == Pass
    ensures Inv(InitializeEffect(s, payer, admin, initialFee, now))
    ensures payer != s.treasury ==>
      Balance(InitializeEffect(s, payer, admin, initialFee, now).balances, s.treasury) >= TREASURY_RENT
  {
  }

  lemma SubmitPreservesInv(s: State, owner: Pubkey, prefix: string, uri: string, hash: Hash32,
                           keys: seq<Pubkey>, instructions: seq<Instruction>, now: int)
    requires Inv(s) && SubmitOutcome(s, owner, prefix, uri, hash, keys, instructions) == Pass
    ensures Inv(SubmitEffect(s, owner, prefix, uri, hash, keys, now))
  {
    NormalizedIsFixedPoint(prefix);
  }

  /** Replacing a record by one with the same identity and valid metadata and keys keeps the
      invariant, whatever happens to the log and to balances that leave the treasury no poorer. */
  lemma RecordUpdatesPreserveInv(s: State, prefix: string, a: PrefixAccount, balances: Balances, log: seq<Event>)
    requires Inv(s) && prefix in s.prefixes
    requires a.prefix == s.prefixes[prefix].prefix && a.feePaid == s.prefixes[prefix].feePaid
    requires a.expiryAt == s.prefixes[prefix].expiryAt && a.createdAt == s.prefixes[prefix].createdAt
    requires ValidateMetadata(a.metadataUri, a.metadataHash).Ok? && |a.authorityKeys| <= MAX_AUTH_KEYS
    requires Balance(balances, s.treasury) >= Balance(s.balances, s.treasury)
    ensures Inv(s.(prefixes := s.prefixes[prefix := a], balances := balances, log := log))
  {
  }

  lemma ApprovePreservesInv(s: State, verifier: Pubkey, prefix: string, refHash: Hash32, now: int)
    requires Inv(s) && ApproveOutcome(s, verifier, prefix, now) == Pass
    ensures Inv(ApproveEffect(s, verifier, prefix, refHash, now))
  {
    var t := ApproveEffect(s, verifier, prefix, refHash, now);
    RecordUpdatesPreserveInv(s, prefix, t.prefixes[prefix], t.balances, t.log);
  }

  lemma RejectPreservesInv(s: State, verifier: Pubkey, prefix: string, reason: string, now: int)
    requires Inv(s) && RejectOutcome(s, verifier, prefix) == Pass
    ensures Inv(RejectEffect(s, verifier, prefix, reason, now))
  {
    var t := RejectEffect(s, verifier, prefix, reason, now);
    RecordUpdatesPreserveInv(s, prefix, t.prefixes[prefix], t.balances, t.log);
  }

  lemma UpdateMetadataPreservesInv(s: State, owner: Pubkey, prefix: string, uri: string, hash: Hash32,
                                   instructions: seq<Instruction>, now: int)
    requires Inv(s) && UpdateMetadataOutcome(s, owner, prefix, uri, hash, instructions) == Pass
    ensures Inv(UpdateMetadataEffect(s, prefix, uri, hash, now))
  {
    var t := UpdateMetadataEffect(s, prefix, uri, hash, now);
    RecordUpdatesPreserveInv(s, prefix, t.prefixes[prefix], t.balances, t.log);
  }

  lemma UpdateAuthorityPreservesInv(s: State, owner: Pubkey, prefix: string, keys: seq<Pubkey>, now: int)
    requires Inv(s) && UpdateAuthorityOutcome(s, owner, prefix, keys) == Pass
    ensures Inv(UpdateAuthorityEffect(s, prefix, keys, now))
  {
    var t := UpdateAuthorityEffect(s, prefix, keys, now);
    RecordUpdatesPreserveInv(s, prefix, t.prefixes[prefix], t.balances, t.log);
  }

  lemma DeactivatePreservesInv(s: State, admin: Pubkey, prefix: string, now: int)
    requires Inv(s) && DeactivateOutcome(s, admin, prefix) == Pass
    ensures Inv(DeactivateEffect(s, admin, prefix, now))
  {
    var t := DeactivateEffect(s, admin, prefix, now);
    RecordUpdatesPreserveInv(s, prefix, t.prefixes[prefix], t.balances, t.log);
  }

  lemma ReactivatePreservesInv(s: State, admin: Pubkey, prefix: string, now: int)
    requires Inv(s) && ReactivateOutcome(s, admin, prefix) == Pass
    ensures Inv(ReactivateEffect(s, admin, prefix, now))
  {
    var t := ReactivateEffect(s, admin, prefix, now);
    RecordUpdatesPreserveInv(s, prefix, t.prefixes[prefix], t.balances, t.log);
  }

  lemma RecoverPreservesInv(s: State, signer: Pubkey, admin: Pubkey, prefix: string, newOwner: Pubkey, now: int)
    requires Inv(s) && RecoverOutcome(s, signer, admin, prefix, newOwner) == Pass
    ensures Inv(RecoverEffect(s, signer, prefix, newOwner, now))
  {
    var t := RecoverEffect(s, signer, prefix, newOwner, now);
    RecordUpdatesPreserveInv(s, prefix, t.prefixes[prefix], t.balances, t.log);
  }

  lemma AddVerifierPreservesInv(s: State, admin: Pubkey, verifier: Pubkey, now: int)
    requires Inv(s) && AddVerifierOutcome(s, admin, verifier) == Pass
    ensures Inv(AddVerifierEffect(s, admin, verifier, now))
  {
    AppendKeepsNoDuplicates(s.roster.verifiers, verifier);
    VerifiersListState.FitsIffWithinCapacity(s.roster.(verifiers := s.roster.verifiers + [verifier]));
  }

  lemma RemoveVerifierPreservesInv(s: State, admin: Pubkey, verifier: Pubkey, now: int)
    requires Inv(s) && RemoveVerifierOutcome(s, admin, verifier) == Pass
    ensures Inv(RemoveVerifierEffect(s, admin, verifier, now))
  {
    RemoveKeepsNoDuplicates(s.roster.verifiers, verifier);
    RemoveFirstShape(s.roster.verifiers, verifier);
  }
  lemma RefundPreservesInv(s: State, owner: Pubkey, prefix: string, now: int)
    requires Inv(s) && RefundOutcome(s, owner, prefix, now) == Pass
    ensures Inv(RefundEffect(s, owner, prefix, now))
  {
  }

  // ---------------------------------------------------------------- dispatch

  /** One program instruction: its signers, its arguments and, where the handler reads it,
      the transaction's instruction list. */
  datatype Instr =
    | Initialize(payer: Pubkey, adminKey: Pubkey, initialFee: u64)
    | SubmitPrefixWithFee(owner: Pubkey, prefix: string, uri: string, hash: Hash32,
                          keys: seq<Pubkey>, instructions: seq<Instruction>)
    | ApprovePrefix(verifier: Pubkey, prefix: string, refHash: Hash32)
    | RejectPrefix(verifier: Pubkey, prefix: string, reason: string)
    | RefundPrefixFee(owner: Pubkey, prefix: string)
    | UpdatePrefixMetadata(owner: Pubkey, prefix: string, uri: string, hash: Hash32,
                           instructions: seq<Instruction>)
    | UpdatePrefixAuthority(owner: Pubkey, prefix: string, keys: seq<Pubkey>)
    | DeactivatePrefix(admin: Pubkey, prefix: string)
    | ReactivatePrefix(admin: Pubkey, prefix: string)
    | RecoverPrefixOwnerWithFee(signer: Pubkey, admin: Pubkey, prefix: string, newOwner: Pubkey)
    | UpdateFee(admin: Pubkey, newFee: u64)
    | AddVerifier(admin: Pubkey, verifier: Pubkey)
    | RemoveVerifier(admin: Pubkey, verifier: Pubkey)
    | WithdrawTreasury(admin: Pubkey, toAccount: Pubkey, amount: u64, to: Pubkey)
    | SetPause(admin: Pubkey, pause: bool)

  /** The verdict of one instruction executed at time `now`. */
  function StepOutcome(s: State, ix: Instr, now: int): Outcome
  {
    match ix
    case Initialize(payer, _, _) => InitializeOutcome(s, payer)
    case SubmitPrefixWithFee(owner, prefix, uri, hash, keys, ixs) =>
      SubmitOutcome(s, owner, prefix, uri, hash, keys, ixs)
    case ApprovePrefix(verifier, prefix, _) => ApproveOutcome(s, verifier, prefix, now)
    case RejectPrefix(verifier, prefix, _) => RejectOutcome(s, verifier, prefix)
    case RefundPrefixFee(owner, prefix) => RefundOutcome(s, owner, prefix, now)
    case UpdatePrefixMetadata(owner, prefix, uri, hash, ixs) =>
      UpdateMetadataOutcome(s, owner, prefix, uri, hash, ixs)
    case UpdatePrefixAuthority(owner, prefix, keys) => UpdateAuthorityOutcome(s, owner, prefix, keys)
    case DeactivatePrefix(admin, prefix) => DeactivateOutcome(s, admin, prefix)
    case ReactivatePrefix(admin, prefix) => ReactivateOutcome(s, admin, prefix)
    case RecoverPrefixOwnerWithFee(signer, admin, prefix, newOwner) =>
      RecoverOutcome(s, signer, admin, prefix, newOwner)
    case UpdateFee(admin, _) => AdminOutcome(s, admin)
    case AddVerifier(admin, verifier) => AddVerifierOutcome(s, admin, verifier)
    case RemoveVerifier(admin, verifier) => RemoveVerifierOutcome(s, admin, verifier)
    case WithdrawTreasury(admin, toAccount, amount, to) => WithdrawOutcome(s, admin, toAccount, amount, to)
    case SetPause(admin, _) => AdminOutcome(s, admin)
  }

  /** The state after one instruction: a failed instruction changes nothing. */
  function Step(s: State, ix: Instr, now: int): State
  {
    if StepOutcome(s, ix, now).Fail? then s
    else match ix
      case Initialize(payer, adminKey, initialFee) => InitializeEffect(s, payer, adminKey, initialFee, now)
      case SubmitPrefixWithFee(owner, prefix, uri, hash, keys, _) =>
        SubmitEffect(s, owner, prefix, uri, hash, keys, now)
      case ApprovePrefix(verifier, prefix, refHash) => ApproveEffect(s, verifier, prefix, refHash, now)
      case RejectPrefix(verifier, prefix, reason) => RejectEffect(s, verifier, prefix, reason, now)
      case RefundPrefixFee(owner, prefix) => RefundEffect(s, owner, prefix, now)
      case UpdatePrefixMetadata(_, prefix, uri, hash, _) => UpdateMetadataEffect(s, prefix, uri, hash, now)
      case UpdatePrefixAuthority(_, prefix, keys) => UpdateAuthorityEffect(s, prefix, keys, now)
      case DeactivatePrefix(admin, prefix) => DeactivateEffect(s, admin, prefix, now)
      case ReactivatePrefix(admin, prefix) => ReactivateEffect(s, admin, prefix, now)
      case RecoverPrefixOwnerWithFee(signer, _, prefix, newOwner) =>
        RecoverEffect(s, signer, prefix, newOwner, now)
      case UpdateFee(admin, newFee) => UpdateFeeEffect(s, admin, newFee, now)
      case AddVerifier(admin, verifier) => AddVerifierEffect(s, admin, verifier, now)
      case RemoveVerifier(admin, verifier) => RemoveVerifierEffect(s, admin, verifier, now)
      case WithdrawTreasury(admin, _, amount, to) => WithdrawEffect(s, admin, amount, to, now)
      case SetPause(_, pause) => SetPauseEffect(s, pause, now)
  }
}
