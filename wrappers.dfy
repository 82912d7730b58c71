/** The `None`-until-built state of the staged fields of a melody. */
module Wrappers {

  datatype Option<+T> = None | Some(value: T)
}
