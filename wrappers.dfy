/** The optional value used for the category column, which may be empty (null) in the input table. */
module Wrappers {

  datatype Option<+T> = None | Some(value: T)

}
