# prefix-system, modelled in Dafny

The prefix system is a Solana program written with Anchor. It keeps a registry of short
upper-case prefixes (3 to 12 ASCII letters or digits).

- **Submission.** An owner submits a prefix together with a metadata URI and hash. The submission
  must be signed through an Ed25519 instruction in the same transaction. The owner pays the current
  fee into a program-owned treasury.
- **Review.** A listed verifier approves the Pending record, which makes it Active, or rejects it.
- **Refund.** A Rejected record, or a Pending one past its 14-day expiry, can be refunded. The
  refund closes the record and returns the fee paid.
- **Owner updates.** The owner may change the metadata, which sends an Active record back to
  Pending, and may change the authority keys.
- **Admin controls.** The admin deactivates and reactivates records, reassigns an owner in return
  for a fee, sets the fee, pauses the fee operations, keeps the roster of up to 256 verifiers, and
  withdraws from the treasury.
- **Emptied treasury.** Initialisation creates the treasury holding its rent-exempt minimum, paid by
  the payer. Refunds and withdrawals debit the treasury directly. One that drains it to
  zero lamports leaves it to be deleted by the runtime. From then on submission, refund and
  withdrawal fail with `InvalidTreasuryAccount` for good. Recovery fees still flow into the
  deleted address but can no longer be withdrawn.

The model has four parts.

- **Values and checks.** The pure helpers are functions with their properties proved:
  - `normalize_prefix`, `validate_metadata` and `assert_program_owned`;
  - the account layouts and their `space` sizes;
  - the roster's `position`/`remove`;
  - the lamport ledger.
- **Handlers.** The fifteen handlers are methods of one class, `PrefixSystem.Ledger`. Its fields
  are the program's accounts: the fee registry, the verifier roster, the treasury owner, the prefix
  records, lamport balances and the event log. Each method runs the handler's checks in source
  order, returns the first failure unchanged, and otherwise updates the fields in place.
- **Specification.** Each method is proved against a pure specification in `LedgerSpec`: an
  `…Outcome` function (the verdict) and an `…Effect` function (the new state). Each method is also
  proved to keep the ledger invariant.
- **Dispatcher properties.** `LedgerSpec.Step` dispatches one instruction.
  `LedgerProperties` proves over it:
  - the invariant is kept and lamports are conserved;
  - who may change which field, and the allowed status transitions;
  - the effect of the pause switch;
  - round trips through the lifecycle.

Anchor's own failures are separate `Error` variants, next to the program's `ErrorCode`. They are:

- a missing account (`AccountNotInitialized`);
- `init` on an address that is in use (`AccountAlreadyInUse`);
- a system transfer the payer cannot cover (`InsufficientLamports`);
- a roster grown past its allocation (`AccountDidNotSerialize`).

Files:

| file | models |
|---|---|
| `primitives.dfy` | bytes, u64, 32-byte keys and hashes, `Option` |
| `constants.dfy` | `constants.rs` and the program ids |
| `errors.dfy`, `events.dfy` | `errors.rs`, `events.rs` |
| `utils.dfy` | `utils.rs` |
| `fee_registry.dfy`, `verifiers_list.dfy`, `prefix_account.dfy` | `state/` |
| `lamports.dfy` | balances, transfers and the total supply |
| `ledger_spec.dfy` | the invariant and the outcome and effect of every instruction |
| `ledger.dfy` | the handlers, `instructions/` |
| `properties.dfy` | properties of the instruction set as a whole |

## Model

| member | source | states |
|---|---|---|
| FeeRegistryState.SpaceIsExact | programs/prefix-system/src/state/fee_registry.rs:4-24 | the registry allocation is 66 bytes, exactly the Borsh size of every registry |
| VerifiersListState.SpaceClosedForm | programs/prefix-system/src/state/verifiers_list.rs:14-21 | `space(n)` is 61 + 32·n bytes |
| VerifiersListState.SpaceAtCapacity | programs/prefix-system/src/state/verifiers_list.rs:14-21 | the roster allocated for 256 verifiers has 8253 bytes |
| VerifiersListState.SpaceStrictlyIncreasing | programs/prefix-system/src/state/verifiers_list.rs:14-21 | room for more verifiers is strictly more space |
| VerifiersListState.FitsIffWithinCapacity | programs/prefix-system/src/state/verifiers_list.rs:4-21 | a roster serialises into the 256-verifier account if and only if it has at most 256 keys |
| VerifiersListState.IndexOf | programs/prefix-system/src/instructions/admin/remove_verifier.rs:23-27 | `position` gives none exactly when the key is absent; otherwise it gives the first index holding the key |
| VerifiersListState.Position | programs/prefix-system/src/instructions/admin/remove_verifier.rs:23-27 | the linear scan returns the same index as `IndexOf` |
| VerifiersListState.RemoveFirstShape | programs/prefix-system/src/instructions/admin/remove_verifier.rs:28 | removing at that index shortens the roster by one, keeps the keys before it and shifts the keys after it down by one |
| VerifiersListState.RemoveFirstMultiset | programs/prefix-system/src/instructions/admin/remove_verifier.rs:23-28 | removal takes out exactly one copy of the key and nothing else |
| VerifiersListState.AppendKeepsNoDuplicates | programs/prefix-system/src/instructions/admin/add_verifier.rs:23-27 | pushing a key that is not yet listed keeps the roster free of duplicates |
| VerifiersListState.RemoveKeepsNoDuplicates | programs/prefix-system/src/instructions/admin/remove_verifier.rs:23-28 | removal keeps the roster free of duplicates and removes the key completely |
| VerifiersListState.AppendThenRemove | programs/prefix-system/src/instructions/admin/remove_verifier.rs:23-28 | removing a key just pushed onto a roster that lacked it restores the roster |
| PrefixAccountState.SpaceClosedForm | programs/prefix-system/src/state/prefix_account.rs:29-43 | `space(p, u, k)` is 151 + p + u + 32·k bytes |
| PrefixAccountState.SpaceAtLimits | programs/prefix-system/src/state/prefix_account.rs:29-43 | a record allocated at the domain limits has 738 bytes |
| PrefixAccountState.SpaceMonotonic | programs/prefix-system/src/state/prefix_account.rs:29-43 | larger maxima never reserve less space |
| PrefixAccountState.SpaceOneByteOver | programs/prefix-system/src/state/prefix_account.rs:39 | `space` counts `expiry_at` as an `Option<i64>`, so it is one byte more than the Borsh size of the record |
| PrefixAccountState.RecordFits | programs/prefix-system/src/state/prefix_account.rs:12-43 | every record within the domain limits fits the account that submission allocates |
| Utils.NormalizePrefix | programs/prefix-system/src/utils.rs:8-20 | succeeds if and only if the input has 3 to 12 characters, all ASCII letters or digits; the result is the input upper-cased, position by position; every failure is InvalidPrefixFormat |
| Utils.NormalizedIsFixedPoint | programs/prefix-system/src/utils.rs:8-20 | a string normalises to itself if and only if it is already a normalised prefix |
| Utils.NormalizeIdempotent | programs/prefix-system/src/utils.rs:8-20 | normalising twice gives the same result as normalising once |
| Utils.LowercaseIsNotNormalized | programs/prefix-system/src/utils.rs:8-20 | a valid prefix with a lower-case letter normalises to a different string, so submission refuses it |
| Utils.NormalizeExamples | programs/prefix-system/src/utils.rs:13-19 | two and thirteen characters are refused, a hyphen is refused, and "myApp1" becomes "MYAPP1" |
| Utils.ValidateMetadata | programs/prefix-system/src/utils.rs:22-32 | the hash length is checked first; the URI is accepted if and only if it has at most 255 UTF-8 bytes and starts with `https://` or `ipfs://`; any other failure is InvalidMetadataUri |
| Utils.ValidateMetadataAcceptsIpfs | programs/prefix-system/src/utils.rs:29 | an `ipfs://` URI with a 32-byte hash passes |
| Utils.ValidateMetadataRejectsHttp | programs/prefix-system/src/utils.rs:29-30 | a plain `http://` URI is refused with InvalidMetadataUri |
| Utils.AssertProgramOwned | programs/prefix-system/src/utils.rs:34-41 | passes if and only if the owner is the given program; otherwise fails with InvalidTreasuryAccount |
| Utils.VerifyEd25519Signature | programs/prefix-system/src/utils.rs:45-89 | the scan succeeds if and only if some Ed25519-program instruction holds both the owner key and the hash as 32-byte windows; otherwise it fails with InvalidEd25519Signature |
| Utils.SignatureOrderIrrelevant | programs/prefix-system/src/utils.rs:57-81 | the verdict depends only on which instructions are present, not on their order |
| Utils.SignatureFailureCases | programs/prefix-system/src/utils.rs:66-78 | no instructions, a match in a non-Ed25519 instruction, or (for a key different from the hash) the key and the hash split across two instructions are each refused |
| Utils.CombinedProofAccepted | programs/prefix-system/src/utils.rs:72-77 | an Ed25519 instruction whose data holds the key followed by the message is accepted, whatever surrounds them |
| Lamports.Transfer | programs/prefix-system/src/instructions/prefix/submit_prefix_with_fee.rs:76-84 | a transfer debits the source and credits the destination by the amount, leaves every other account alone, and changes nothing when the two are the same account |
| Lamports.TransferConserves | programs/prefix-system/src/instructions/prefix/refund_prefix_fee.rs:50-61 | a transfer or a direct debit and credit keeps the total number of lamports |
| LedgerSpec.InitialState | programs/prefix-system/src/instructions/initialize.rs:8-44 | before initialisation there are no records, the treasury belongs to the system program, and the invariant holds |
| LedgerSpec.InitializePreservesInv | programs/prefix-system/src/instructions/initialize.rs:34-81 | initialisation sets up a treasury owned by the program that holds at least its rent-exempt minimum (for a payer other than the treasury), and a roster with the registry's admin, and keeps the invariant |
| LedgerSpec.SubmitPreservesInv | programs/prefix-system/src/instructions/prefix/submit_prefix_with_fee.rs:41-113 | a new record is stored under its own normalised prefix with valid metadata, at most 10 keys, a positive fee and an expiry 14 days after creation |
| LedgerSpec.ApprovePreservesInv | programs/prefix-system/src/instructions/prefix/approve_prefix.rs:22-75 | approval keeps the invariant |
| LedgerSpec.RejectPreservesInv | programs/prefix-system/src/instructions/prefix/reject_prefix.rs:19-44 | rejection keeps the invariant |
| LedgerSpec.UpdateMetadataPreservesInv | programs/prefix-system/src/instructions/prefix/update_prefix_metadata.rs:20-67 | a metadata update stores only metadata that passed validation |
| LedgerSpec.UpdateAuthorityPreservesInv | programs/prefix-system/src/instructions/prefix/update_prefix_authority.rs:15-48 | an authority update stores at most 10 keys |
| LedgerSpec.DeactivatePreservesInv | programs/prefix-system/src/instructions/prefix/deactivate_prefix.rs:17-36 | deactivation keeps the invariant |
| LedgerSpec.ReactivatePreservesInv | programs/prefix-system/src/instructions/prefix/reactivate_prefix.rs:17-36 | reactivation keeps the invariant |
| LedgerSpec.RecoverPreservesInv | programs/prefix-system/src/instructions/prefix/recover_prefix_owner_with_fee.rs:32-91 | recovery keeps the invariant |
| LedgerSpec.AddVerifierPreservesInv | programs/prefix-system/src/instructions/admin/add_verifier.rs:14-36 | adding keeps the roster duplicate-free and within 256 keys |
| LedgerSpec.RemoveVerifierPreservesInv | programs/prefix-system/src/instructions/admin/remove_verifier.rs:14-37 | removing keeps the roster duplicate-free and within 256 keys |
| LedgerSpec.RefundPreservesInv | programs/prefix-system/src/instructions/prefix/refund_prefix_fee.rs:23-71 | closing a record keeps the invariant on the records that remain |
| PrefixSystem.Ledger.constructor | programs/prefix-system/src/instructions/initialize.rs:8-44 | a deployed but uninitialised program: no accounts yet, and the invariant holds |
| PrefixSystem.Ledger.Initialize | programs/prefix-system/src/instructions/initialize.rs:8-81 | fails with AccountAlreadyInUse once initialised, and with InsufficientLamports when the payer cannot top the treasury up to its rent-exempt minimum; otherwise the payer pays that top-up into the treasury, which is handed to the program, the registry and the empty roster are created with the admin and the fee, and FeeUpdated from 0 is logged |
| PrefixSystem.Ledger.SubmitPrefixWithFee | programs/prefix-system/src/instructions/prefix/submit_prefix_with_fee.rs:41-113 | runs the checks in source order and returns the first failure with nothing changed: record free, not paused, prefix normalised, metadata, key count, treasury owner, Ed25519 proof, fee > 0, payer balance. On success moves the fee to the treasury, stores a Pending record expiring in 14 days and logs PrefixSubmitted |
| PrefixSystem.Ledger.ApprovePrefix | programs/prefix-system/src/instructions/prefix/approve_prefix.rs:22-75 | requires that the program is not paused, that the verifier is listed, that the record is Pending and that it has not expired; on success sets Active with the reference hash and logs PrefixApproved and PrefixActivated |
| PrefixSystem.Ledger.RejectPrefix | programs/prefix-system/src/instructions/prefix/reject_prefix.rs:19-44 | requires that the program is not paused, that the verifier is listed and that the record is Pending; on success sets Rejected and logs the reason |
| PrefixSystem.Ledger.RefundPrefixFee | programs/prefix-system/src/instructions/prefix/refund_prefix_fee.rs:23-71 | requires that the program is not paused, that the record is Rejected or expired while Pending, that the caller is the owner, that the treasury is owned by the program, that the fee paid is positive and that the treasury holds it; on success pays back exactly the fee paid, closes the record and logs PrefixRefunded; a treasury left with no lamports is deleted and reverts to the system program |
| PrefixSystem.Ledger.UpdatePrefixMetadata | programs/prefix-system/src/instructions/prefix/update_prefix_metadata.rs:20-67 | requires the owner, a record that is not Rejected, valid metadata and an Ed25519 proof over the new hash (it does not check the pause flag); on success stores the metadata, and an Active record goes back to Pending with a zero reference hash |
| PrefixSystem.Ledger.UpdatePrefixAuthority | programs/prefix-system/src/instructions/prefix/update_prefix_authority.rs:15-48 | requires at most 10 keys, the owner and a record that is not Rejected; on success replaces the keys and leaves the status alone |
| PrefixSystem.Ledger.DeactivatePrefix | programs/prefix-system/src/instructions/prefix/deactivate_prefix.rs:17-36 | requires the admin and an Active record; on success sets Inactive |
| PrefixSystem.Ledger.ReactivatePrefix | programs/prefix-system/src/instructions/prefix/reactivate_prefix.rs:17-36 | requires the admin and an Inactive record; on success sets Active |
| PrefixSystem.Ledger.RecoverPrefixOwnerWithFee | programs/prefix-system/src/instructions/prefix/recover_prefix_owner_with_fee.rs:32-91 | requires the admin, that the program is not paused, a signer who is the new owner, and a positive current fee that the signer's balance covers (otherwise InsufficientFee); on success the signer pays the fee into the treasury and becomes the owner |
| PrefixSystem.Ledger.UpdateFee | programs/prefix-system/src/instructions/admin/update_fee.rs:12-33 | admin only; sets the fee and logs the old and new values |
| PrefixSystem.Ledger.SetPause | programs/prefix-system/src/instructions/admin/set_pause.rs:12-22 | admin only; sets the pause flag |
| PrefixSystem.Ledger.AddVerifier | programs/prefix-system/src/instructions/admin/add_verifier.rs:14-36 | admin only; a key that is already listed fails with InvalidPrefixStatus; pushes the key onto the roster, and fails with AccountDidNotSerialize when the roster would outgrow its account |
| PrefixSystem.Ledger.RemoveVerifier | programs/prefix-system/src/instructions/admin/remove_verifier.rs:14-37 | admin only; an unlisted key fails with UnauthorizedVerifier; otherwise removes the key at its first position |
| PrefixSystem.Ledger.WithdrawTreasury | programs/prefix-system/src/instructions/admin/withdraw_treasury.rs:21-49 | requires the admin, that the program is not paused, a treasury owned by the program, a treasury balance that covers the amount and a destination that matches `to`; on success moves the amount to `to`, and a treasury left with no lamports is deleted and reverts to the system program |
| LedgerProperties.StepPreservesInv | programs/prefix-system/src/lib.rs:15-114 | every instruction, whether it succeeds or fails, keeps the invariant |
| LedgerProperties.StepConservesLamports | programs/prefix-system/src/lib.rs:15-114 | no instruction creates or destroys lamports |
| LedgerProperties.StepKeepsRecordIdentity | programs/prefix-system/src/state/prefix_account.rs:13-26 | a record's prefix, fee paid, creation time and expiry never change |
| LedgerProperties.StepStatusEdges | programs/prefix-system/src/instructions/prefix/approve_prefix.rs:34-59 | the status moves only Pending→Active/Rejected, Active→Pending/Inactive or Inactive→Active; approval needs a listed verifier before expiry and records the reference hash; going back to Pending clears the reference hash |
| LedgerProperties.StepOwnerChangesOnlyByRecovery | programs/prefix-system/src/instructions/prefix/recover_prefix_owner_with_fee.rs:38-80 | only recovery changes an owner, and only when authorised by the admin and signed by the new owner |
| LedgerProperties.StepMetadataChangesOnlyByOwner | programs/prefix-system/src/instructions/prefix/update_prefix_metadata.rs:27-57 | only the owner changes the metadata, and only with an Ed25519 proof over the new hash |
| LedgerProperties.StepAuthorityChangesOnlyByOwner | programs/prefix-system/src/instructions/prefix/update_prefix_authority.rs:20-38 | only the owner changes the authority keys, and they become exactly the given keys |
| LedgerProperties.StepCreatesOnlyBySubmission | programs/prefix-system/src/instructions/prefix/submit_prefix_with_fee.rs:41-113 | a record appears only through a signed, paid submission, as Pending with a zero reference hash; the treasury gains the fee |
| LedgerProperties.StepDeletesOnlyByRefund | programs/prefix-system/src/instructions/prefix/refund_prefix_fee.rs:18-71 | a record disappears only through its owner's refund, when allowed, and the owner gets exactly the fee paid |
| LedgerProperties.ConfigChangesOnlyByAdmin | programs/prefix-system/src/instructions/admin/update_fee.rs:14-18 | once initialised, only the admin's fee, pause and roster instructions change the registry or the roster |
| LedgerProperties.TreasuryDebitedOnlyByRefundOrWithdraw | programs/prefix-system/src/instructions/admin/withdraw_treasury.rs:27-40 | the treasury loses lamports only through a permitted refund or an admin withdrawal when the program is not paused |
| LedgerProperties.PausedFreezesFunds | programs/prefix-system/src/instructions/prefix/reject_prefix.rs:20 | while an initialised registry is paused every fee operation fails and no lamports move |
| LedgerProperties.PausedErrorIsFeeOperationsPaused | programs/prefix-system/src/instructions/prefix/submit_prefix_with_fee.rs:49 | once the accounts resolve, a paused program refuses fee operations with FeeOperationsPaused |
| LedgerProperties.PauseIndependentOperations | programs/prefix-system/src/instructions/prefix/deactivate_prefix.rs:17-36 | the other instructions do not depend on the pause flag |
| LedgerProperties.SetPauseIdempotent | programs/prefix-system/src/instructions/admin/set_pause.rs:12-22 | setting the same pause value twice equals setting it once |
| LedgerProperties.PrefixTakenRejectsSubmission | programs/prefix-system/src/instructions/prefix/submit_prefix_with_fee.rs:22-30 | a prefix that already has a record cannot be submitted again |
| LedgerProperties.ApproveOrRefund | programs/prefix-system/src/instructions/prefix/refund_prefix_fee.rs:30-36 | while the treasury exists, for a Pending record exactly one of approval and refund succeeds; approval fails with PrefixExpired exactly when refund succeeds |
| LedgerProperties.FeeChangeKeepsRefunds | programs/prefix-system/src/instructions/prefix/refund_prefix_fee.rs:49-58 | a refund pays back the fee recorded at submission, whatever the fee is now |
| LedgerProperties.AddVerifierCapacity | programs/prefix-system/src/instructions/admin/add_verifier.rs:23-28 | a new verifier is accepted if and only if the roster has fewer than 256 keys; otherwise serialisation fails |
| LedgerProperties.SubmitRejectRefundRoundTrip | programs/prefix-system/src/instructions/prefix/refund_prefix_fee.rs:23-71 | from a reachable state, submit, reject and refund all succeed and restore the records, the registry, the roster, every balance and the treasury's owner: the treasury keeps its rent and is not deleted |
| LedgerProperties.DeactivateReactivateRoundTrip | programs/prefix-system/src/instructions/prefix/reactivate_prefix.rs:17-36 | deactivating then reactivating restores the record apart from its update time |
| LedgerProperties.AddRemoveVerifierRoundTrip | programs/prefix-system/src/instructions/admin/remove_verifier.rs:14-37 | adding then removing a verifier restores the roster |
| LedgerProperties.StoredRecordsFit | programs/prefix-system/src/instructions/prefix/submit_prefix_with_fee.rs:27 | every record the ledger holds is smaller than the account `space(MAX_PREFIX_LEN, MAX_URI_LEN, MAX_AUTH_KEYS)` allocated for it |
| LedgerProperties.StaleUpdateBecomesRefundable | programs/prefix-system/src/instructions/prefix/update_prefix_metadata.rs:51-57 | updating the metadata of an Active record past its expiry puts it back to Pending without renewing the expiry, so approval then fails with PrefixExpired and the owner's refund succeeds |
| LedgerProperties.WithdrawAllDeletesTreasury | programs/prefix-system/src/instructions/admin/withdraw_treasury.rs:31-40 | the admin may withdraw the whole treasury balance; the emptied treasury is deleted and reverts to the system program |
| LedgerProperties.WithdrawDeletesTreasuryIff | programs/prefix-system/src/instructions/admin/withdraw_treasury.rs:32-40 | on a reachable state, a withdrawal deletes the treasury if and only if it succeeds and takes the whole balance to another account; a smaller withdrawal, including one of nothing, leaves the treasury in place |
| LedgerProperties.DeletedTreasuryIsPermanent | programs/prefix-system/src/instructions/prefix/submit_prefix_with_fee.rs:57-61 | once the treasury is no longer owned by the program, no instruction gives it back, submission, refund and withdrawal always fail, and its balance never decreases |
| LedgerProperties.DeletedTreasuryError | programs/prefix-system/src/instructions/prefix/refund_prefix_fee.rs:42-46 | with the treasury deleted, an otherwise allowed refund and any admin withdrawal fail with InvalidTreasuryAccount |

## Left out

- Rent is modelled only for the treasury. Initialisation tops the treasury up to 890,880 lamports, the rent-exempt minimum of an account with no data under the default rent. A refund or withdrawal that drains the treasury to zero leaves it to be deleted, as the runtime does. The runtime also refuses a transaction that leaves an account with a positive balance below its rent-exempt minimum. That check is not modelled, so the model accepts a refund or a withdrawal that leaves the treasury with between 1 and 890,879 lamports.
- The rent the payer deposits into the fee registry and the roster at initialisation, the rent of each record account (paid at submission, returned to its owner when a refund closes it) are not modelled. Balances hold only the lamports the handlers and the treasury's creation move.
- LedgerProperties.ApproveOrRefund: holds only while the treasury is owned by the program; once it has been drained and deleted, refunds fail with InvalidTreasuryAccount (see LedgerProperties.DeletedTreasuryError).
- Program-derived addresses are not modelled. Records are keyed by their prefix string, bumps are not stored, and the limit of 32 bytes per seed is not checked.
- The `pending_pda` field of the submission event is not modelled, because it is an address derivation.
- Ed25519 signatures are not cryptographically verified. As in the source, only the presence of an Ed25519 instruction carrying the key and the hash is checked; the runtime's own signature check is outside the program.
- The clock is the `now` parameter of every handler. `now_ts` in `constants.rs` is not modelled.
- Lamports.Transfer: one function stands for both the system-program transfer (submission, recovery) and the direct debit and credit (refund, withdrawal). The two differ only in who may sign, and that is not modelled.
- Timestamps and balances are unbounded integers, so i64 and u64 overflow (of `now + 14 days`, of a balance) is not modelled. Fees and amounts are still limited to u64.
- The records' lamports, `realloc` and account sizes at run time are not modelled. Only the serialised size of the roster is checked against its allocation.
- Transactions, concurrency and the ordering of transactions across the cluster are not modelled; each handler is one atomic step.
- `errors.rs` and `events.rs` are modelled only as data (the error codes and the event log). Their message strings are not modelled.
