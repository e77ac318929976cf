/** A value that may be absent: Python's `None` for a missing reading, or a parse that fails. */
module Wrappers {

  datatype Option<+T> = None | Some(value: T)
}
