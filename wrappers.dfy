/** The optional value shared by every module: `null`/`undefined` or a value. */
module Wrappers {
  datatype Option<+T> = None | Some(value: T)
}
