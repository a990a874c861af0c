/** The optional-value datatype used for lookups, the resolved caller and client replies. */
module Wrappers {

  datatype Option<+T> = None | Some(value: T)
}
