/** The optional-value type used across the model (a missing DOM element, a key with no binding). */
module Wrappers {
  datatype Option<+T> = None | Some(value: T)
}
