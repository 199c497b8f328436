/** Optional values and outcomes shared by the JSend modules. */
module Wrappers {

  /** A value that may be absent; used for JavaScript's `undefined`. */
  datatype Option<T> = None | Some(value: T)

  /** The outcome of an operation that may throw. */
  datatype Result<T, E> = Ok(value: T) | Err(error: E)
}
