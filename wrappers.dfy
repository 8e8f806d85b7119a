/** Option, the wrapper for a value that may be missing or for an operation that may throw. */
module Wrappers {

  datatype Option<+T> = None | Some(value: T)
}
