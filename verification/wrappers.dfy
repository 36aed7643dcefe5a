/** The Some/None datatype the model uses in place of a nullable reference. */
module Wrappers {

  datatype Option<+T> = None | Some(value: T)
}
