/** Option, standing for the JavaScript values that may be `null`/`undefined`. */
module Wrappers {
  datatype Option<+T> = None | Some(value: T)
}
