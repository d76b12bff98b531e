/** The optional-value datatype used for the applied coupon and for storage reads. */
module Wrappers {

  datatype Option<+T> = None | Some(value: T)
}
