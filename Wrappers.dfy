/** Option type shared by the screen models. */
module Wrappers {

  /** A value that may be absent, like a JavaScript value that may be `undefined`. */
  datatype Option<+T> = None | Some(value: T)
}
