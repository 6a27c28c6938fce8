/** Small shared value types. */
module Wrappers {

  /** A value that may be absent; stands for a buffer or object that may not have been allocated. */
  datatype Option<+T> = None | Some(value: T)
}
