/** Optional values and fallible results, used by every instruction of the model. */
module Wrappers {

  datatype Option<+T> = None | Some(value: T)

  /** The outcome of an instruction: the new value, or the error that aborted it. */
  datatype Result<+T, +E> = Ok(value: T) | Err(error: E)
}
