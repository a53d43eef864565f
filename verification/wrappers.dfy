/** The optional-value type used for JavaScript's `undefined` and for
    functions that may fail, such as `JSON.parse`. */
module Wrappers {

  datatype Option<+T> = None | Some(value: T)
}
