/** The optional-value datatype used for absent options and callback errors. */
module Wrappers {

  datatype Option<+T> = None | Some(value: T)

}
