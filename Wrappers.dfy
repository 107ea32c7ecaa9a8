/** The one optional-value datatype the model needs (Python's `None` or a value). */
module Wrappers {
  datatype Option<+T> = None | Some(value: T)
}
