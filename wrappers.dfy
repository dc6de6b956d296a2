/** The optional value shared by every module of the model: a nullable
    Kotlin value, a missing default case, an absent result. */
module Wrappers {
  datatype Option<+T> = None | Some(value: T)
}
