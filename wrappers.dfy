/** The optional value used for results that may be absent and for state that is
    not yet set. */
module Wrappers {
  datatype Option<T> = None | Some(value: T)
}
