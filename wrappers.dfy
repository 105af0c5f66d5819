/** Option and Result values shared by the model of the chat gateway. */
module Wrappers {

  /** A JavaScript value that may be `undefined`/`null` (None) or present (Some). */
  datatype Option<+T> = None | Some(value: T)

  /** The outcome of a call that either returns a value or throws an `Error`
      whose message is `error`. */
  datatype Result<+T> = Success(value: T) | Failure(error: string)
}
