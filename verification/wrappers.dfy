/** Optional values and the outcome of a call that may throw an unchecked exception. */
module Wrappers {

  /** java.util.Optional, and a reference that may be null. */
  datatype Option<+T> = None | Some(value: T)

  /**
   * The outcome of a Java call that either returns a value or throws an unchecked
   * exception (a RuntimeException or an Error), described by its class name.
   */
  datatype Attempt<+T> = Ok(value: T) | Raises(description: string)
}
