/** Small result types shared by the other modules. */
module Wrappers {

  /** A value that may be missing: JavaScript's `undefined` result. */
  datatype Option<+T> = None | Some(value: T)
}
