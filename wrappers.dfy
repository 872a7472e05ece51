/** Failure-carrying wrappers shared by the statistics and posting modules. */
module Wrappers {

  datatype Option<+T> = None | Some(value: T)

  /** The outcome of an operation that either yields a value or raises an error. */
  datatype Result<+T, +E> = Success(value: T) | Failure(error: E)

  /** Regrouping a concatenation; stated once so that callers need not re-derive it. */
  lemma AppendAssoc<T>(a: seq<T>, b: seq<T>, c: seq<T>)
    ensures a + (b + c) == a + b + c
  {
  }
}
