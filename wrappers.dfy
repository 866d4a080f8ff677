/** The conventional Some/None datatype, standing in for Go's nil pointer. */
module Wrappers {

  datatype Option<+T> = None | Some(value: T)
}
