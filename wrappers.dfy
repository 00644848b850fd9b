/** An optional value, standing for JavaScript's `undefined`/`null` where the pages use them. */
module Wrappers {
  datatype Option<+T> = None | Some(value: T)
}
