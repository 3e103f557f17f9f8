/** The optional value used for JavaScript's `undefined` and for hooks that return nothing. */
module Wrappers {

  datatype Option<+T> = None | Some(value: T)
}
