/** The optional-value wrapper used for JavaScript's `undefined` and for failed lookups. */
module Wrappers {
  datatype Option<+T> = None | Some(value: T)
}
