/** Python's optional values: a slot that may hold None. */
module Wrappers {

  datatype Option<+T> = None | Some(value: T)
}
