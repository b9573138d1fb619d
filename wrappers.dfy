/** The optional value, used wherever the Go code may return nil. */
module Wrappers {

  datatype Option<+T> = None | Some(value: T)
}
