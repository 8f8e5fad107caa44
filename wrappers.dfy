/** The optional value used wherever the application may or may not produce something. */
module Wrappers {
  datatype Option<+T> = None | Some(value: T)
}
