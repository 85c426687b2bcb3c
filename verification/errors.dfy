/** The program's error enum and the outcome of a handler. */
module Errors {

  /** The program's own error codes, in declaration order. */
  datatype ErrorCode =
    | UnauthorizedAdmin
    | UnauthorizedVerifier
    | InvalidPrefixFormat
    | PrefixAlreadyExists
    | InvalidPrefixStatus
    | InsufficientFee
    | InvalidMetadataHashLength
    | InvalidMetadataUri
    | InvalidTreasuryAccount
    | InsufficientTreasuryBalance
    | RefundNotAllowed
    | UnauthorizedOwnerAction
    | MissingBump
    | FeeOperationsPaused
    | PrefixExpired
    | AuthorityKeysTooMany
    | InvalidEd25519Signature

  /** Why a whole instruction fails: one of the program's codes, or a failure raised by the
      framework around the handler (account constraints, the system transfer, writing the
      account back at exit). */
  datatype Error =
    | Program(code: ErrorCode)
    | AccountNotInitialized    // an account the instruction names does not exist
    | AccountAlreadyInUse      // `init` on an address that already holds an account
    | InsufficientLamports     // the system transfer's payer cannot cover the amount
    | AccountDidNotSerialize   // the updated account no longer fits the space allocated for it

  /** The value or error of a helper in utils.rs. */
  datatype Result<T> = Ok(value: T) | Err(error: ErrorCode)

  /** The result of a whole instruction: it commits, or it fails with no effect. */
  datatype Outcome = Pass | Fail(error: Error)
}
