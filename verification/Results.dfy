/** Option and Result, and the errors an instruction can end with. */
module Results {
  datatype Option<+T> = None | Some(value: T)

  datatype Error =
    // the program's own error codes
    | Unauthorized
    | InvalidAmount
    | InvalidRecipient
    | BelowMinCap
    | AboveMaxCap
    | ZeroAddress
    | InvalidCapRange
    | InvalidPrice
    | InvalidOwner
    | Paused
    | InvalidInput
    | InvalidMint
    | InsufficientBalance
    | InvalidToken
    | BlockUsdCapExceeded
    | RateLimitExceeded
    | InvalidAccount
    | NotSupported
    | MessageHashMismatch
    | TssAuthFailed
    | AccountWritableFlagMismatch
    | UnexpectedOuterSigner
    | InvalidProgram
    | InvalidInstruction
    | InvalidTxType
    | InsufficientProtocolFee
    | InsufficientFeePool
    // raised by the runtime, by Anchor or by another program
    | MissingSignature
    | AccountInUse
    | AccountNotInitialized
    | TokenAuthorityConstraint
    | InsufficientLamports
    | TokenTransferFailed
    | ArithmeticPanic
    | CpiFailed

  datatype Result<+T> = Ok(value: T) | Err(error: Error) {
    predicate IsFailure() {
      Err?
    }

    function PropagateFailure<U>(): (r: Result<U>)
      requires Err?
    {
      Err(error)
    }

    function Extract(): T
      requires Ok?
    {
      value
    }
  }

  /** The outcome of a step that only succeeds or fails. */
  datatype Status = Pass | Fail(error: Error) {
    predicate IsFailure() {
      Fail?
    }

    function PropagateFailure(): Status
      requires Fail?
    {
      this
    }
  }

  /** `require!`: continue when the condition holds, leave with the error otherwise. */
  function Require(condition: bool, error: Error): Status {
    if condition then Pass else Fail(error)
  }

  /** The first failing check of two made in this order. */
  function First(a: Status, b: Status): Status {
    if a.Fail? then a else b
  }
}
