/** A value that may be absent, as a nil pointer, an empty result or a failed call leaves it. */
module Wrappers {

  datatype Option<T> = None | Some(value: T)
}
