/** The optional value used for JavaScript's `undefined`-or-value fields. */
module Wrappers {

  datatype Option<+T> = None | Some(value: T)
}
