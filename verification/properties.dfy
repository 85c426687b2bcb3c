/** Properties of the instruction set, stated over the dispatcher `Step`: what every instruction
    keeps, who may change what, and round trips through the prefix lifecycle. */
module LedgerProperties {
  import opened Primitives
  import opened Constants
  import opened Errors
  import opened Utils
  import opened PrefixAccountState
  import opened FeeRegistryState
  import opened VerifiersListState
  import opened Lamports
  import opened Events
  import opened LedgerSpec

  // ---------------------------------------------------------------- invariant and conservation

  /** Every instruction, successful or not, keeps the invariant. */
  lemma StepPreservesInv(s: State, ix: Instr, now: int)
    requires Inv(s)
    ensures Inv(Step(s, ix, now))
  {
    if StepOutcome(s, ix, now).Pass? {
      if ix.Initialize? {
        InitializePreservesInv(s, ix.payer, ix.adminKey, ix.initialFee, now);
      } else if ix.SubmitPrefixWithFee? {
        SubmitPreservesInv(s, ix.owner, ix.prefix, ix.uri, ix.hash, ix.keys, ix.instructions, now);
      } else if ix.RefundPrefixFee? {
        RefundPreservesInv(s, ix.owner, ix.prefix, now);
      } else if ix.AddVerifier? {
        AddVerifierPreservesInv(s, ix.admin, ix.verifier, now);
      } else if ix.RemoveVerifier? {
        RemoveVerifierPreservesInv(s, ix.admin, ix.verifier, now);
      } else {
        RecordStepPreservesInv(s, ix, now);
      }
    }
  }

  /** The instructions that rewrite one stored record keep the invariant. */
  lemma RecordStepPreservesInv(s: State, ix: Instr, now: int)
    requires Inv(s) && StepOutcome(s, ix, now).Pass?
    requires !ix.Initialize? && !ix.SubmitPrefixWithFee? && !ix.RefundPrefixFee?
    requires !ix.AddVerifier? && !ix.RemoveVerifier?
    ensures Inv(Step(s, ix, now))
  {
    if ix.ApprovePrefix? {
      ApprovePreservesInv(s, ix.verifier, ix.prefix, ix.refHash, now);
    } else if ix.RejectPrefix? {
      RejectPreservesInv(s, ix.verifier, ix.prefix, ix.reason, now);
    } else if ix.UpdatePrefixMetadata? {
      UpdateMetadataPreservesInv(s, ix.owner, ix.prefix, ix.uri, ix.hash, ix.instructions, now);
    } else if ix.UpdatePrefixAuthority? {
      UpdateAuthorityPreservesInv(s, ix.owner, ix.prefix, ix.keys, now);
    } else if ix.DeactivatePrefix? {
      DeactivatePreservesInv(s, ix.admin, ix.prefix, now);
    } else if ix.ReactivatePrefix? {
      ReactivatePreservesInv(s, ix.admin, ix.prefix, now);
    } else if ix.RecoverPrefixOwnerWithFee? {
      RecoverPreservesInv(s, ix.signer, ix.admin, ix.prefix, ix.newOwner, now);
    }
  }

  /** No instruction creates or destroys lamports: fees and refunds only move them. */
  lemma StepConservesLamports(s: State, ix: Instr, now: int)
    ensures Total(Step(s, ix, now).balances) == Total(s.balances)
  {
    if StepOutcome(s, ix, now).Pass? {
      match ix
      case Initialize(payer, adminKey, initialFee) =>
        var rent := RentTopUp(Balance(s.balances, s.treasury));
        assert Step(s, ix, now) == InitializeEffect(s, payer, adminKey, initialFee, now);
        TransferConserves(s.balances, payer, s.treasury, rent);
      case SubmitPrefixWithFee(owner, prefix, uri, hash, keys, _) =>
        assert Step(s, ix, now) == SubmitEffect(s, owner, prefix, uri, hash, keys, now);
        TransferConserves(s.balances, owner, s.treasury, s.registry.currentFee);
      case RefundPrefixFee(owner, prefix) =>
        assert Step(s, ix, now) == RefundEffect(s, owner, prefix, now);
        TransferConserves(s.balances, s.treasury, owner, s.prefixes[prefix].feePaid);
      case RecoverPrefixOwnerWithFee(signer, _, prefix, newOwner) =>
        assert Step(s, ix, now) == RecoverEffect(s, signer, prefix, newOwner, now);
        TransferConserves(s.balances, signer, s.treasury, s.registry.currentFee);
      case WithdrawTreasury(admin, _, amount, to) =>
        assert Step(s, ix, now) == WithdrawEffect(s, admin, amount, to, now);
        TransferConserves(s.balances, s.treasury, to, amount);
      case _ =>
        assert Step(s, ix, now).balances == s.balances;
    }
  }

  // ---------------------------------------------------------------- who may change what

  /** A record's prefix, fee paid, creation time and expiry never change while it exists. */
  lemma StepKeepsRecordIdentity(s: State, ix: Instr, now: int, p: string)
    requires p in s.prefixes && p in Step(s, ix, now).prefixes
    ensures var a, b := s.prefixes[p], Step(s, ix, now).prefixes[p];
      b.prefix == a.prefix && b.feePaid == a.feePaid && b.createdAt == a.createdAt && b.expiryAt == a.expiryAt
  {
  }

  /** The status moves Pending to Active or Rejected, Active to Pending (new metadata) or
      Inactive, and Inactive back to Active; Rejected is final. Approval takes a listed
      verifier before expiry and records its reference hash. */
  lemma StepStatusEdges(s: State, ix: Instr, now: int, p: string)
    requires p in s.prefixes && p in Step(s, ix, now).prefixes
    ensures var a, b := s.prefixes[p], Step(s, ix, now).prefixes[p];
      && (a.status == b.status
          || (a.status == Pending && b.status == Active)
          || (a.status == Pending && b.status == Rejected)
          || (a.status == Active && b.status == Pending)
          || (a.status == Active && b.status == Inactive)
          || (a.status == Inactive && b.status == Active))
      && (a.status == Pending && b.status == Active ==>
            ix.ApprovePrefix? && ix.verifier in s.roster.verifiers && now <= a.expiryAt && b.refHash == ix.refHash)
      && (a.status == Active && b.status == Pending ==> b.refHash == ZERO_HASH)
  {
  }

  /** Only the recovery instruction, authorised by the admin and signed by the new owner,
      changes a record's owner. */
  lemma StepOwnerChangesOnlyByRecovery(s: State, ix: Instr, now: int, p: string)
    requires p in s.prefixes && p in Step(s, ix, now).prefixes
    requires Step(s, ix, now).prefixes[p].owner != s.prefixes[p].owner
    ensures ix.RecoverPrefixOwnerWithFee? && ix.prefix == p && ix.admin == s.registry.admin
    ensures ix.signer == ix.newOwner == Step(s, ix, now).prefixes[p].owner
  {
  }

  /** Only the owner changes a record's metadata, and only with a signature over the new hash. */
  lemma StepMetadataChangesOnlyByOwner(s: State, ix: Instr, now: int, p: string)
    requires p in s.prefixes && p in Step(s, ix, now).prefixes
    requires var a, b := s.prefixes[p], Step(s, ix, now).prefixes[p];
      b.metadataUri != a.metadataUri || b.metadataHash != a.metadataHash
    ensures ix.UpdatePrefixMetadata? && ix.prefix == p && ix.owner == s.prefixes[p].owner
    ensures HasSignatureInstruction(ix.instructions, ix.owner, Step(s, ix, now).prefixes[p].metadataHash)
  {
  }

  /** Only the owner changes a record's authority keys. */
  lemma StepAuthorityChangesOnlyByOwner(s: State, ix: Instr, now: int, p: string)
    requires p in s.prefixes && p in Step(s, ix, now).prefixes
    requires Step(s, ix, now).prefixes[p].authorityKeys != s.prefixes[p].authorityKeys
    ensures ix.UpdatePrefixAuthority? && ix.prefix == p && ix.owner == s.prefixes[p].owner
    ensures Step(s, ix, now).prefixes[p].authorityKeys == ix.keys
  {
  }

  /** A record appears only by a paid, signed submission, as a Pending record with a zero
      reference hash; the fee goes into the treasury. */
  lemma StepCreatesOnlyBySubmission(s: State, ix: Instr, now: int, p: string)
    requires p !in s.prefixes && p in Step(s, ix, now).prefixes
    ensures ix.SubmitPrefixWithFee? && ix.prefix == p
    ensures var b := Step(s, ix, now).prefixes[p];
      && b.status == Pending && b.refHash == ZERO_HASH && b.owner == ix.owner
      && b.feePaid == s.registry.currentFee > 0
      && HasSignatureInstruction(ix.instructions, ix.owner, b.metadataHash)
    ensures ix.owner != s.treasury ==>
      Balance(Step(s, ix, now).balances, s.treasury) == Balance(s.balances, s.treasury) + s.registry.currentFee
  {
  }

  /** A record disappears only by its owner's refund, when it is Rejected or expired while
      Pending; the owner gets back exactly the fee paid at submission. */
  lemma StepDeletesOnlyByRefund(s: State, ix: Instr, now: int, p: string)
    requires p in s.prefixes && p !in Step(s, ix, now).prefixes
    ensures ix.RefundPrefixFee? && ix.prefix == p && ix.owner == s.prefixes[p].owner
    ensures RefundAllowed(s.prefixes[p], now)
    ensures ix.owner != s.treasury ==>
      Balance(Step(s, ix, now).balances, ix.owner) == Balance(s.balances, ix.owner) + s.prefixes[p].feePaid
  {
  }

  /** The instructions the admin alone may issue. */
  predicate AdminInstruction(ix: Instr, admin: Pubkey)
  {
    match ix
    case UpdateFee(a, _) => a == admin
    case SetPause(a, _) => a == admin
    case AddVerifier(a, _) => a == admin
    case RemoveVerifier(a, _) => a == admin
    case _ => false
  }

  /** Once initialised, the fee registry and the verifier roster change only by the admin. */
  lemma ConfigChangesOnlyByAdmin(s: State, ix: Instr, now: int)
    requires s.initialized
    requires Step(s, ix, now).registry != s.registry || Step(s, ix, now).roster != s.roster
    ensures AdminInstruction(ix, s.registry.admin)
  {
  }

  /** The treasury loses lamports only through a permitted refund or an admin withdrawal. */
  lemma TreasuryDebitedOnlyByRefundOrWithdraw(s: State, ix: Instr, now: int)
    requires Balance(Step(s, ix, now).balances, s.treasury) < Balance(s.balances, s.treasury)
    ensures || (ix.RefundPrefixFee? && ix.prefix in s.prefixes && ix.owner == s.prefixes[ix.prefix].owner
                && RefundAllowed(s.prefixes[ix.prefix], now))
            || (ix.WithdrawTreasury? && ix.admin == s.registry.admin && !s.registry.pause)
  {
  }

  // ---------------------------------------------------------------- the pause switch

  /** The fee-related instructions are refused while paused. */
  predicate FeeOperation(ix: Instr)
  {
    ix.SubmitPrefixWithFee? || ix.ApprovePrefix? || ix.RejectPrefix? || ix.RefundPrefixFee?
    || ix.RecoverPrefixOwnerWithFee? || ix.WithdrawTreasury?
  }

  /** While an initialised registry is paused no fee-related instruction succeeds, so no
      lamports move at all. */
  lemma PausedFreezesFunds(s: State, ix: Instr, now: int)
    requires s.initialized && s.registry.pause
    ensures FeeOperation(ix) ==> StepOutcome(s, ix, now).Fail?
    ensures Step(s, ix, now).balances == s.balances
  {
  }

  /** The pause flag is what refuses them: on an initialised registry, with the record (where
      there is one) present, submit, approve, reject and refund fail with FeeOperationsPaused. */
  lemma PausedErrorIsFeeOperationsPaused(s: State, ix: Instr, now: int)
    requires s.initialized && s.registry.pause
    requires ix.SubmitPrefixWithFee? ==> ix.prefix !in s.prefixes
    requires ix.ApprovePrefix? || ix.RejectPrefix? || ix.RefundPrefixFee? ==> ix.prefix in s.prefixes
    requires ix.RecoverPrefixOwnerWithFee? ==> ix.prefix in s.prefixes && ix.admin == s.registry.admin
    requires ix.WithdrawTreasury? ==> ix.admin == s.registry.admin
    ensures FeeOperation(ix) ==> StepOutcome(s, ix, now) == Fail(Program(FeeOperationsPaused))
  {
  }

  /** The other instructions do not look at the pause flag. */
  lemma PauseIndependentOperations(s: State, ix: Instr, now: int, pause: bool)
    requires !FeeOperation(ix)
    ensures StepOutcome(s.(registry := s.registry.(pause := pause)), ix, now) == StepOutcome(s, ix, now)
  {
  }

  /** Setting the pause flag twice to the same value is the same as setting it once. */
  lemma SetPauseIdempotent(s: State, admin: Pubkey, pause: bool, t1: int, t2: int)
    ensures Step(Step(s, SetPause(admin, pause), t1), SetPause(admin, pause), t2)
         == Step(s, SetPause(admin, pause), t2)
  {
  }

  // ---------------------------------------------------------------- lifecycle facts

  /** A prefix that already has a record cannot be submitted again. */
  lemma PrefixTakenRejectsSubmission(s: State, owner: Pubkey, prefix: string, uri: string, hash: Hash32,
                                     keys: seq<Pubkey>, ixs: seq<Instruction>, now: int)
    requires Inv(s) && prefix in s.prefixes
    ensures StepOutcome(s, SubmitPrefixWithFee(owner, prefix, uri, hash, keys, ixs), now)
         == Fail(AccountAlreadyInUse)
  {
  }

  /** A Pending record is approvable exactly while it is not refundable as expired: with the
      treasury able to pay, exactly one of approve and refund succeeds, and approve fails with
      PrefixExpired exactly when refund succeeds. */
  lemma ApproveOrRefund(s: State, verifier: Pubkey, p: string, now: int)
    requires Inv(s) && s.initialized && !s.registry.pause && p in s.prefixes
    requires s.prefixes[p].status == Pending && verifier in s.roster.verifiers
    requires s.treasuryOwner == PROGRAM_ID
    requires Balance(s.balances, s.treasury) >= s.prefixes[p].feePaid
    ensures ApproveOutcome(s, verifier, p, now).Pass? != RefundOutcome(s, s.prefixes[p].owner, p, now).Pass?
    ensures ApproveOutcome(s, verifier, p, now) == Fail(Program(PrefixExpired))
        <==> RefundOutcome(s, s.prefixes[p].owner, p, now).Pass?
  {
  }

  /** Updating the metadata of an Active record sends it back to Pending without renewing its
      expiry: once the original fourteen days are over, it can never be approved again, and its
      owner can take the fee back. */
  lemma StaleUpdateBecomesRefundable(s: State, owner: Pubkey, p: string, uri: string, hash: Hash32,
                                     ixs: seq<Instruction>, t: int, verifier: Pubkey, now: int)
    requires Inv(s) && s.initialized && !s.registry.pause && s.treasuryOwner == PROGRAM_ID
    requires UpdateMetadataOutcome(s, owner, p, uri, hash, ixs) == Pass
    requires s.prefixes[p].status == Active && now > s.prefixes[p].expiryAt
    requires verifier in s.roster.verifiers && Balance(s.balances, s.treasury) >= s.prefixes[p].feePaid
    ensures var s1 := Step(s, UpdatePrefixMetadata(owner, p, uri, hash, ixs), t);
      && s1.prefixes[p].status == Pending
      && ApproveOutcome(s1, verifier, p, now) == Fail(Program(PrefixExpired))
      && RefundOutcome(s1, owner, p, now) == Pass
  {
    assert RecordInv(p, s.prefixes[p]);
  }

  /** Changing the fee does not change what a refund returns: the refund pays back the fee
      recorded at submission. */
  lemma FeeChangeKeepsRefunds(s: State, admin: Pubkey, newFee: u64, t: int, owner: Pubkey, p: string, now: int)
    ensures var s1 := Step(s, UpdateFee(admin, newFee), t);
      s1.prefixes == s.prefixes && s1.balances == s.balances
      && RefundOutcome(s1, owner, p, now) == RefundOutcome(s, owner, p, now)
  {
  }

  /** A verifier can be added only while the roster has room for it. */
  lemma AddVerifierCapacity(s: State, admin: Pubkey, verifier: Pubkey)
    requires Inv(s) && s.initialized && admin == s.registry.admin && verifier !in s.roster.verifiers
    ensures AddVerifierOutcome(s, admin, verifier) == Pass <==> |s.roster.verifiers| < MAX_VERIFIERS
    ensures AddVerifierOutcome(s, admin, verifier) != Pass ==>
      AddVerifierOutcome(s, admin, verifier) == Fail(AccountDidNotSerialize)
  {
    VerifiersListState.FitsIffWithinCapacity(s.roster.(verifiers := s.roster.verifiers + [verifier]));
  }

  /** Every stored record fits the account that submission allocated for it. */
  lemma StoredRecordsFit(s: State, p: string)
    requires Inv(s) && p in s.prefixes
    ensures PrefixAccountState.SerializedSize(s.prefixes[p]) < PrefixAccountState.Space(MAX_PREFIX_LEN, MAX_URI_LEN, MAX_AUTH_KEYS)
  {
    var a := s.prefixes[p];
    assert RecordInv(p, a);
    assert forall i :: 0 <= i < |p| ==> IsAscii(p[i]);
    assert Utf8Len(a.prefix) == |p|;
    RecordFits(a);
  }

  // ---------------------------------------------------------------- round trips

  /** Submit, reject, refund: the owner gets the fee back, the prefix is free again, every
      balance is as before and the treasury, which kept its rent, still belongs to the program. */
  lemma SubmitRejectRefundRoundTrip(s: State, owner: Pubkey, prefix: string, uri: string, hash: Hash32,
                                    keys: seq<Pubkey>, ixs: seq<Instruction>, verifier: Pubkey,
                                    reason: string, t1: int, t2: int, t3: int)
    requires Inv(s) && owner != s.treasury && verifier in s.roster.verifiers
    requires StepOutcome(s, SubmitPrefixWithFee(owner, prefix, uri, hash, keys, ixs), t1) == Pass
    ensures var s1 := Step(s, SubmitPrefixWithFee(owner, prefix, uri, hash, keys, ixs), t1);
      var s2 := Step(s1, RejectPrefix(verifier, prefix, reason), t2);
      var s3 := Step(s2, RefundPrefixFee(owner, prefix), t3);
      && StepOutcome(s1, RejectPrefix(verifier, prefix, reason), t2) == Pass
      && StepOutcome(s2, RefundPrefixFee(owner, prefix), t3) == Pass
      && s3.prefixes == s.prefixes
      && s3.registry == s.registry && s3.roster == s.roster
      && s3.treasuryOwner == s.treasuryOwner
      && forall k :: Balance(s3.balances, k) == Balance(s.balances, k)
  {
    var fee := s.registry.currentFee;
    var s1 := Step(s, SubmitPrefixWithFee(owner, prefix, uri, hash, keys, ixs), t1);
    assert s1.prefixes[prefix].feePaid == fee;
    var s2 := Step(s1, RejectPrefix(verifier, prefix, reason), t2);
    assert s2.prefixes[prefix].status == Rejected;
    assert s2.prefixes - {prefix} == s.prefixes;
  }

  /** Deactivating and then reactivating a record restores it, apart from its update time. */
  lemma DeactivateReactivateRoundTrip(s: State, admin: Pubkey, p: string, t1: int, t2: int)
    requires StepOutcome(s, DeactivatePrefix(admin, p), t1) == Pass
    ensures var s1 := Step(s, DeactivatePrefix(admin, p), t1);
      var s2 := Step(s1, ReactivatePrefix(admin, p), t2);
      && StepOutcome(s1, ReactivatePrefix(admin, p), t2) == Pass
      && s2.prefixes == s.prefixes[p := s.prefixes[p].(updatedAt := t2)]
  {
  }

  /** Adding a verifier and then removing it gives back the original roster. */
  lemma AddRemoveVerifierRoundTrip(s: State, admin: Pubkey, verifier: Pubkey, t1: int, t2: int)
    requires StepOutcome(s, AddVerifier(admin, verifier), t1) == Pass
    ensures var s1 := Step(s, AddVerifier(admin, verifier), t1);
      var s2 := Step(s1, RemoveVerifier(admin, verifier), t2);
      && StepOutcome(s1, RemoveVerifier(admin, verifier), t2) == Pass
      && s2.roster.verifiers == s.roster.verifiers
  {
    var s1 := AddVerifierEffect(s, admin, verifier, t1);
    assert Step(s, AddVerifier(admin, verifier), t1) == s1;
    AppendThenRemove(s.roster.verifiers, verifier);
    assert RemoveVerifierOutcome(s1, admin, verifier) == Pass;
    assert Step(s1, RemoveVerifier(admin, verifier), t2) == RemoveVerifierEffect(s1, admin, verifier, t2);
  }

  // ---------------------------------------------------------------- the treasury account

  /** Withdrawing the treasury's whole balance succeeds, and the runtime then deletes the
      emptied account: it belongs to the system program from then on. */
  lemma WithdrawAllDeletesTreasury(s: State, admin: Pubkey, amount: u64, to: Pubkey, t: int)
    requires s.initialized && admin == s.registry.admin && !s.registry.pause
    requires s.treasuryOwner == PROGRAM_ID && to != s.treasury
    requires amount == Balance(s.balances, s.treasury)
    ensures StepOutcome(s, WithdrawTreasury(admin, to, amount, to), t) == Pass
    ensures var s1 := Step(s, WithdrawTreasury(admin, to, amount, to), t);
      s1.treasuryOwner == SYSTEM_PROGRAM_ID && Balance(s1.balances, s1.treasury) == 0
  {
  }

  /** On a reachable state a withdrawal deletes the treasury exactly when it succeeds and takes
      the whole balance: the rent deposited at initialisation keeps a treasury from which less is
      withdrawn, a withdrawal of nothing included. */
  lemma WithdrawDeletesTreasuryIff(s: State, admin: Pubkey, toAccount: Pubkey, amount: u64, to: Pubkey, t: int)
    requires Inv(s)
    ensures var ix := WithdrawTreasury(admin, toAccount, amount, to);
      Step(s, ix, t).treasuryOwner != s.treasuryOwner <==>
        StepOutcome(s, ix, t).Pass? && to != s.treasury && amount == Balance(s.balances, s.treasury)
  {
  }

  /** Once the treasury has been deleted no instruction brings it back. Submission, refund and
      withdrawal fail for good, and the treasury's balance never decreases again, so fees that
      recovery still pays into it are stranded. */
  lemma DeletedTreasuryIsPermanent(s: State, ix: Instr, now: int)
    requires s.initialized && s.treasuryOwner != PROGRAM_ID
    ensures Step(s, ix, now).treasuryOwner == s.treasuryOwner
    ensures ix.SubmitPrefixWithFee? || ix.RefundPrefixFee? || ix.WithdrawTreasury? ==>
      StepOutcome(s, ix, now).Fail?
    ensures Balance(Step(s, ix, now).balances, s.treasury) >= Balance(s.balances, s.treasury)
  {
  }

  /** A refund or a withdrawal that gets as far as the treasury check fails there with
      InvalidTreasuryAccount once the treasury has been deleted. */
  lemma DeletedTreasuryError(s: State, owner: Pubkey, p: string, now: int,
                             admin: Pubkey, toAccount: Pubkey, amount: u64, to: Pubkey)
    requires s.initialized && s.treasuryOwner != PROGRAM_ID && !s.registry.pause
    ensures p in s.prefixes && RefundAllowed(s.prefixes[p], now) && owner == s.prefixes[p].owner ==>
      RefundOutcome(s, owner, p, now) == Fail(Program(InvalidTreasuryAccount))
    ensures admin == s.registry.admin ==>
      WithdrawOutcome(s, admin, toAccount, amount, to) == Fail(Program(InvalidTreasuryAccount))
  {
  }
}
