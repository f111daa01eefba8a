/** Optional values and results shared by the three parts of the model. */
module Wrappers {

  /** A Java reference that may be null, or a lookup that may miss. */
  datatype Option<+T> = None | Some(value: T)

  /** A call that either returns a value or raises an error. */
  datatype Result<+T, +E> = Ok(value: T) | Err(error: E)
}
