/** The usual optional-value datatype, used for the renderer's `None`-able variables. */
module Wrappers {
  datatype Option<+T> = None | Some(value: T)
}
