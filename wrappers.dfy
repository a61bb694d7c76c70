/** The optional value used for the session's `string | undefined` state and for
    payload fields that a relay frame may leave out. */
module Wrappers {

  datatype Option<+T> = None | Some(value: T)
}
