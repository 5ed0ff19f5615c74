/** The optional value shared by the modules of the interpreter. */
module Wrappers {
  datatype Option<T> = None | Some(value: T)
}
