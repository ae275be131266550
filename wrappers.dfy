/** The nullable values of the source (`None` until a value is assigned). */
module Wrappers {

  datatype Option<+T> = None | Some(value: T)
}
