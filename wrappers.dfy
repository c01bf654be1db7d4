/** Optional values and failure-carrying results, used wherever the source has `undefined`/`null`
    or a thrown `Error` with a message. */
module Wrappers {

  datatype Option<+T> = None | Some(value: T)

  /** A JavaScript call that either returns a value or throws an `Error` whose `message` is kept. */
  datatype Result<+T> = Ok(value: T) | Err(message: string)
}
