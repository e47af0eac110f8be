/** Python's None, for values that may be missing (an unset timer, a closed connection, a NULL cell). */
module Wrappers {
  datatype Option<+T> = None | Some(value: T)
}
