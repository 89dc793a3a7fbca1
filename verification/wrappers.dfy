/** The optional value used for the program's `null`/`undefined`-or-value slots. */
module Wrappers {
  datatype Option<+T> = None | Some(value: T)
}
