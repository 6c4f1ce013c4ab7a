/** Optional values and results used across the model: a Python value that
    may be `None`, and an operation that may raise. */
module Wrappers {

  datatype Option<+T> = None | Some(value: T)
  {
    /** This value when present, otherwise `other`. */
    function OrElse(other: Option<T>): Option<T> {
      if Some? then this else other
    }
  }

  datatype Result<+T, +E> = Ok(value: T) | Err(error: E)
}
