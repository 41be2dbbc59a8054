/** The optional value used wherever the Go code holds a possibly-nil reference. */
module Wrappers {

  datatype Option<+T> = None | Some(value: T)
}
