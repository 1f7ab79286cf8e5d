/** The optional result of a choice that may find nothing to choose. */
module Wrappers {
  datatype Option<+T> = None | Some(value: T)
}
