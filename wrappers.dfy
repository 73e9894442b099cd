/** A value that may be missing: a refused token, an item outside the grid. */
module Wrappers {

  datatype Option<T> = None | Some(value: T)
}
