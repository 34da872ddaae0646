/** Option and Result values for the optional inputs and the awaited calls that can fail. */
module Wrappers {

  datatype Option<+T> = None | Some(value: T)

  /** Outcome of an awaited call: its value, or the message of the error it threw. */
  datatype Result<+T> = Success(value: T) | Failure(message: string)
}
