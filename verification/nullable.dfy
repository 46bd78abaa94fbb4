/**
 Kotlin's nullable values: `None` stands for `null`. Used for the gesture's
 optional down event, the intent extra and the preference key that may never
 have been written.
 */
module Nullable {

  datatype Option<T> = None | Some(value: T)

  /** Kotlin's elvis operator `x ?: fallback`. */
  function Elvis<T>(x: Option<T>, fallback: T): (r: T)
    ensures x.Some? ==> r == x.value
    ensures x.None? ==> r == fallback
  {
    if x.None? then fallback else x.value
  }
}
