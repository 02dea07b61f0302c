/** Option and Result, the two wrappers the rest of the model uses. */
module Wrappers {

  /** A value that may be absent (a JavaScript property that is `undefined`). */
  datatype Option<+T> = None | Some(value: T)

  /** The outcome of a computation that may throw: `Err` carries the thrown message. */
  datatype Result<+T> = Ok(value: T) | Err(error: string)
}
