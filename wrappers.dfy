/** The optional-value datatype used for the error paths of the model. */
module Wrappers {

  /** A value that may be missing: `None` stands for the point where the script raises. */
  datatype Option<+T> = None | Some(value: T)
}
