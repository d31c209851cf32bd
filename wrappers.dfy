/** Optional values and error returns, standing in for Python's `None` results
    and for exceptions the source raises. */
module Wrappers {

  datatype Option<+T> = None | Some(value: T)

  /** `Err` carries the name of the exception the source would raise. */
  datatype Result<+T> = Ok(value: T) | Err(error: string)
}
