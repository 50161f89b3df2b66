/** The optional value used for JavaScript's `null`-able slots and lookups. */
module Wrappers {
  datatype Option<+T> = None | Some(value: T)
}
