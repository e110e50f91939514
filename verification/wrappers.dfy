/** The optional-value datatype the model uses for values that may be absent. */
module Wrappers {

  datatype Option<+T> = None | Some(value: T)
}
