/** The optional-value datatype used wherever the source returns `null`/`None` or reads a field that may be absent. */
module Wrappers {
  datatype Option<+T> = None | Some(value: T)
}
