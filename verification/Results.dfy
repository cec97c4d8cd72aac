/** Handler results: the program's error codes and the runtime's aborts. */
module Results {
  datatype Option<+T> = None | Some(value: T)

  datatype Error =
    | NotSigner
    | AlreadyInitialized
    | InvalidAccountOwner
    | InvalidPoolParams
    | InvalidAuthority
    | InvalidTier
    | InvalidItem
    | InvalidItemCount
    | InvalidCount
    | InvalidAsset
    | InvalidQuote
    | QuoteExpired
    | InvalidTokenAddress
    | NotNextInQueue
    | InvalidPullStatus
    | InvalidPoolStatus
    | InvalidInstructionData
    | InvalidProof
    | InvalidOutcome
    | SoldOut
    | DeadlineNotReached
    | DeadlinePassed
    | InventoryChanged
    | InsufficientBalance
    | PendingPurchases
    | ArithmeticOverflow
    | InvalidAccount      // client side: a malformed snapshot
    | WrongPool           // client side
    | NotPending          // client side
    | MissingInventory    // client side: only the header was fetched
    | TransactionTooLarge // client side
    | TransferFailed      // a token or asset transfer the called program rejects
    | Abort               // a runtime panic: checked machine arithmetic or an index out of range

  datatype Result<+T> = Ok(value: T) | Err(error: Error) {
    predicate IsFailure() {
      Err?
    }

    function PropagateFailure<U>(): Result<U>
      requires Err?
    {
      Err(error)
    }

    function Extract(): T
      requires Ok?
    {
      value
    }
  }

  /** The result of a handler's guards. */
  function Unless(refusal: Option<Error>): Result<()> {
    match refusal
    case None => Ok(())
    case Some(e) => Err(e)
  }
}
