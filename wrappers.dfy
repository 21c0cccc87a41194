/** The optional value: JavaScript's `undefined` or a missing key. */
module Wrappers {

  datatype Option<+T> = None | Some(value: T)
}
