/** The optional-value wrapper used throughout the model. */
module Wrappers {

  /** `None` where the handler has no value (a thrown TypeError, an empty
      response body); `Some(v)` otherwise. */
  datatype Option<+T> = None | Some(value: T)
}
