/** Small shared vocabulary: an optional value (TypeScript's `T | null`,
    Python's `Optional[T]`) and duplicate-freedom of a sequence. */
module Wrappers {

  datatype Option<+T> = None | Some(value: T)

  /** No element of `s` occurs twice. */
  predicate NoDuplicates<T(==)>(s: seq<T>)
  {
    forall i, j :: 0 <= i < j < |s| ==> s[i] != s[j]
  }
}
