/** Optional values and results with an error, the shapes Python's `None` and
    raised exceptions take in this model. */
module Wrappers {

  /** A Python value that may be `None`. */
  datatype Option<T> = None | Some(value: T)

  /** Either a value or the error that was raised instead. */
  datatype Result<T, E> = Ok(value: T) | Err(error: E)
}
