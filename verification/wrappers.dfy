/** The optional value shared by the whole model: Python's None, a missing key, an absent object. */
module Wrappers {
  datatype Option<T> = None | Some(value: T)
}
