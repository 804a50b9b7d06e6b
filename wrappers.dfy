/** Small failure-carrying datatypes used for the raise paths of the source. */
module Wrappers {

  datatype Option<+T> = None | Some(value: T)

  /** Either a value or the error the source would raise. */
  datatype Result<+T, +E> = Ok(value: T) | Err(error: E)

  /** The outcome of a call that returns nothing but may raise. */
  datatype Outcome<+E> = Pass | Fail(error: E)
}
