/** The library's numeric helpers, at the integer coordinate type. */
module Numeric {

  /** `isNaN` specialised to `int`: an integer is never NaN. */
  predicate IsNaN(t: int) {
    false
  }
}
