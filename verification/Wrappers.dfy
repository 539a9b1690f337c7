/** A value that may be absent: a null pointer, or an error return that carries nothing. */
module Wrappers {

  datatype Option<+T> = None | Some(value: T)
}
