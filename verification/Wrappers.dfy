/** A value that may be missing: Python's None, a key that is not there, a run that is not possible. */
module Wrappers {
  datatype Option<+T> = None | Some(value: T)
}
