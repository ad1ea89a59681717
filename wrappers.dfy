/** The optional value used throughout the model for the source's `None`-able state. */
module Wrappers {
  datatype Option<+T> = None | Some(value: T)
}
