/** The optional value used for response fields that the service may leave out. */
module Wrappers {
  datatype Option<+T> = None | Some(value: T)
}
