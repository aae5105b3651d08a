/** The optional value the widget hands to its listeners (Kotlin's nullable `T?`). */
module Wrappers {
  datatype Option<T> = None | Some(value: T)
  {
    predicate IsSome() { Some? }
  }
}
