/** The optional value used for the `error` state, for optional message fields and for operations that throw. */
module Wrappers {
  datatype Option<+T> = None | Some(value: T)
}
