/** The optional value used for Go's nil-or-present fields. */
module Wrappers {

  datatype Option<+T> = None | Some(value: T)
}
