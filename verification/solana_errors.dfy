/** The failures of the Solana program: the program's own error codes, and
    the three failures the runtime raises before or during a handler (an
    account the instruction needs does not exist, an account the instruction
    creates exists already, a debit exceeds an account's balance). Any of
    them aborts the whole instruction with no state change. */
module SolanaErrors {

  datatype ErrorCode =
    // raised by the runtime or by the account loader
    | AccountNotInitialized
    | AccountAlreadyInUse
    | InsufficientFunds
    // the program's error codes
    | Unauthorized
    | NameTooLong
    | DescriptionTooLong
    | VersionTooLong
    | InvalidModelType
    | ModelNotActive
    | AttestationRequired
    | InvalidOwner
    | EmptyBatch
    | BatchTooLarge
    | Overflow
    | FeeTooHigh
    | InsufficientStake
    | NoSupportedChains
    | ZeroDeposit
    | IntentAlreadyMatched
    | SolverNotActive
    | IntentExpired
    | ChainNotSupported
    | NotMatchedSolver
    | InvalidIntentStatus
    | IntentNotExecuted
    | InvalidFeeVault
    | InvalidCreator
}
