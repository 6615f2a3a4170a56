/** The optional value used for JavaScript's `undefined`/`null` results and failed matches. */
module Wrappers {

  datatype Option<+T> = None | Some(value: T)
}
