/** Optional values, used for JavaScript's `undefined`. */
module Wrappers {

  /** `undefined` (None) or a present value. */
  datatype Option<T> = None | Some(value: T)
}
