/** The optional value shared by the reader of output lines and the driver's
    error returns. */
module Wrappers {

  datatype Option<+T> = None | Some(value: T)
}
