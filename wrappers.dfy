/** The optional value used for the scheduler's nullable fields (`null` in the source). */
module Wrappers {

  datatype Option<+T> = None | Some(value: T)
}
