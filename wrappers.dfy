/** The optional value used wherever the source has `null`/`undefined` for "nothing". */
module Wrappers {
  datatype Option<+T> = None | Some(value: T)
}
