/** Python's `None`-or-value, used for the optional arguments of the signing layer. */
module Wrappers {
  datatype Option<+T> = None | Some(value: T)
}
