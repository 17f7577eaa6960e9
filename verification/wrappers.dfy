/** Optional values: the model's stand-in for JavaScript's `null`, `undefined`
    and the empty-string "nothing selected" sentinel. */
module Wrappers {

  datatype Option<+T> = None | Some(value: T)
}
