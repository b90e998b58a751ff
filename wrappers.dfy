/** A value that may be absent: Python's `None` versus an object. */
module Wrappers {

  datatype Option<+T> = None | Some(value: T)
}
