/** What a call into the REST services can come back with, and how an async
    operation of the client ends. The services themselves are not modelled: an
    operation receives its call's outcome as a parameter. */
module Outcomes {
  import opened Wrappers

  /** A rejected call: the HTTP status of the response when there was one
      (`error.response?.status`) and `error.message`. */
  datatype Failure = Failure(status: Option<int>, message: string)

  /** The outcome of one service call. */
  datatype ServiceResult<+T> = Ok(value: T) | Err(failure: Failure)

  /** How an async operation ends: its promise resolves with a value or rejects
      with a failure. */
  datatype Completion<+T> = Return(value: T) | Throw(failure: Failure)
}
