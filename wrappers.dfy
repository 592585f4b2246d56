/** The optional value used wherever the Go code holds a pointer that may stay nil. */
module Wrappers {

  datatype Option<+T> = None | Some(value: T)
}
