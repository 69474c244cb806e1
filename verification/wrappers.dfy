/** The optional value the store helpers return for a missing row (Python's None). */
module Wrappers {
  datatype Option<+T> = None | Some(value: T)
}
