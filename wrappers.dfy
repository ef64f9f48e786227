/** The optional value used wherever the client passes `null`. */
module Wrappers {
  datatype Option<+T> = None | Some(value: T)
}
