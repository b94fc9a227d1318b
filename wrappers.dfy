/** Option and Result values, and a few facts about sequences, shared by
    every module of the model. */
module Wrappers {

  datatype Option<+T> = None | Some(value: T)

  /** The outcome of an operation that can raise: `Ok` carries the value,
      `Err` the error the source raises instead. */
  datatype Result<+T, +E> = Ok(value: T) | Err(error: E)

  /** A non-empty list is its front and its last element. */
  lemma SplitLast<T>(s: seq<T>)
    requires s != []
    ensures s[..|s| - 1] + [s[|s| - 1]] == s
  {
  }

  /** A non-empty list is its first element and the rest. */
  lemma SplitFirst<T>(s: seq<T>)
    requires s != []
    ensures [s[0]] + s[1..] == s
  {
  }

  lemma EmptyPrefix<T>(s: seq<T>)
    ensures [] + s == s
  {
  }
}
