/** The optional value used for the patch fields and the store's lookups. */
module Wrappers {

  datatype Option<+T> = None | Some(value: T)

}
