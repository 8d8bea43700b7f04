/** Option, Result and Outcome: the absent row, the raised exception and the
    handler response of the service, as values. */
module Wrappers {

  datatype Option<+T> = None | Some(value: T)

  datatype Result<+T, +E> = Success(value: T) | Failure(error: E)

  /** A step that either completes or fails with an error and no value. */
  datatype Outcome<+E> = Pass | Fail(error: E)

  /** No element occurs twice: what a set turned into a list looks like. */
  predicate Distinct<T(==)>(s: seq<T>) {
    forall i, j :: 0 <= i < j < |s| ==> s[i] != s[j]
  }
}
