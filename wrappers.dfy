/** The optional-value type shared by the modules of this project. */
module Wrappers {

  /** A value that may be absent: Go's nil slice, nil error or nil pointer. */
  datatype Option<+T> = None | Some(value: T)
}
