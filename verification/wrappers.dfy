/** The optional value used throughout the model for operations that can fail. */
module Wrappers {

  datatype Option<+T> = None | Some(value: T)
}
