/** What several components share: an optional value, and monotone multiplication. */
module Basics {
  datatype Option<T> = None | Some(value: T)

  lemma TimesMonotone(a: int, b: int, n: int)
    requires a <= b && 0 <= n
    ensures a * n <= b * n
  {
  }
}
