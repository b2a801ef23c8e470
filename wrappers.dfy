/** The nullable values of the storefront's component state (`useState(null)`). */
module Wrappers {

  datatype Option<+T> = None | Some(value: T)
}
