/** Optional values, results and outcomes: the model's stand-ins for Swift optionals
    and for functions that `throw`. */
module Wrappers {
  datatype Option<T> = None | Some(value: T)

  /** The value of a throwing function that returns something. */
  datatype Result<T, E> = Ok(value: T) | Err(error: E)

  /** The value of a throwing function that returns nothing. */
  datatype Outcome<E> = Pass | Fail(error: E)
}
