/** A value that may be absent: the model's counterpart of a nil pointer result. */
module Wrappers {
  datatype Option<+T> = None | Some(value: T)
}
