/** Optional values and the outcome of a call that may throw. */
module Wrappers {

  /** A value that may be missing (JavaScript `null` or `undefined`). */
  datatype Option<+T> = None | Some(value: T)

  /**
   * The settled state of a promise: fulfilled with a value, or rejected with
   * an `Error` whose `message` is kept (the empty string stands for an error
   * without a message; JavaScript treats both as falsy).
   */
  datatype Result<+T> = Ok(value: T) | Err(message: string)
}
