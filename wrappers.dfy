/** The optional-value datatype used for a nullable wallet address. */
module Wrappers {

  datatype Option<+T> = None | Some(value: T)
}
