/** Kotlin's nullable references (`File?`, `String?`) become an explicit option. */
module Wrappers {

  datatype Option<+T> = None | Some(value: T)
}
