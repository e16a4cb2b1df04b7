/** An optional value: an argument that a JavaScript caller may leave out. */
module Wrappers {

  datatype Option<+T> = None | Some(value: T)
}
