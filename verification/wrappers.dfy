/** The optional value used for request arguments that may be absent. */
module Wrappers {
  datatype Option<+T> = None | Some(value: T)
}
