/** Option, used wherever the Python code yields `None` or raises. */
module Wrappers {
  datatype Option<+T> = None | Some(value: T)
}
