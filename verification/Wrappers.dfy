/** A value that may be missing: Go's nil. */
module Wrappers {
  datatype Option<+T> = None | Some(value: T)
}
