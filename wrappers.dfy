/** A value that may be absent: stands for a nullable reference in the source. */
module Wrappers {

  datatype Option<+T> = None | Some(value: T)
}
