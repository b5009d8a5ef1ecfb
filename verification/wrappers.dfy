/** Option, standing for Python's `None`-or-value fields of the handler. */
module Wrappers {

  datatype Option<+T> = None | Some(value: T)
}
