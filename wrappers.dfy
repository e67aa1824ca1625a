/** A value that may be absent, such as a gesture coordinate that was never recorded. */
module Wrappers {

  datatype Option<+T> = None | Some(value: T)
}
