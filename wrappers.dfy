/** An optional value: JavaScript's `undefined` or an empty form input. */
module Wrappers {

  datatype Option<+T> = None | Some(value: T)
}
