/** The usual optional value, used for the Python `None` and for a parse that raises. */
module Wrappers {
  datatype Option<+T> = None | Some(value: T)
}
