/** Small shared vocabulary: optional values and the outcome of a control-plane call. */
module Prelude {

  datatype Option<+T> = None | Some(value: T)

  /** The exceptions of exceptions.py (and the built-in ones the services raise). */
  datatype Error =
    | TaskNotFound
    | AttemptNotFound
    | DuplicateRecord
    | InvalidTransition
    | InvalidGeneration
    | StateConflict
    | ValueError
    | AttributeError
    | OverflowError
    | RecursionError
    | CheckpointFailed
    | CheckpointIncompatible
    | BudgetState
    | NoEligibleChannel
    | ChannelFailed
    | ResultRejected

  datatype Result<+T> = Ok(value: T) | Err(error: Error)

  function Max(a: int, b: int): int {
    if a < b then b else a
  }
}
