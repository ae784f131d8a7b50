/** A value that may be absent, standing in for Python's None. */
module Wrappers {
  datatype Option<+T> = None | Some(value: T)
}
