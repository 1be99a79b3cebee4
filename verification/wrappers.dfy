/** The optional value used where the source passes a nullable pointer. */
module Wrappers {
  datatype Option<+T> = None | Some(value: T)
}
