/** Small failure-carrying datatypes shared by the model. */
module Wrappers {

  /** A value that may be missing: a cancelled `prompt` answers None. */
  datatype Option<+T> = None | Some(value: T)
}
