/** A value that may be missing: undefined or null in the source. */
module Wrappers {
  datatype Option<T> = None | Some(value: T)
}
