/** Optional values and error-carrying results, used where the source returns
    `None`, raises an exception, or returns an empty dictionary. */
module Wrappers {

  datatype Option<+T> = None | Some(value: T)

  /** A computation that either yields a value or raises with a message. */
  datatype Result<+T> = Success(value: T) | Failure(error: string)

  /** A computation with no value that either completes or raises with a message. */
  datatype Outcome = Pass | Fail(error: string)
}
