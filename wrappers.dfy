/** The optional value used wherever a lookup can miss or a parse can fail. */
module Wrappers {
  datatype Option<+T> = None | Some(value: T)
}
