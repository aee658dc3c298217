/** The optional value used where the source has `null`. */
module Wrappers {
  datatype Option<+T> = None | Some(value: T)
}
