/** The optional value used wherever the screen works with `null` or `undefined`. */
module Wrappers {

  datatype Option<+T> = None | Some(value: T)
}
