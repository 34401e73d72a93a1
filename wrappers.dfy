/** The optional value that Kotlin writes as a nullable type (`T?`). */
module Wrappers {

  datatype Option<+T> = None | Some(value: T)
}
