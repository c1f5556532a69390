/** Option: the model's stand-in for Python's `None`-or-value fields and arguments. */
module Wrappers {

  datatype Option<+T> = None | Some(value: T)
}
