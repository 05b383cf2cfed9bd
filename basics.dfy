/** Small general-purpose datatypes and predicates shared by the model. */
module Basics {

  /** An optional value: a datastore query's `get()` or a nullable key. */
  datatype Option<+T> = None | Some(value: T)

  /** The outcome of an operation that can be rejected with an error. */
  datatype Result<+T, +E> = Ok(value: T) | Err(error: E)

  /** `r` can be obtained from `s` by deleting elements (order is kept). */
  ghost predicate Subsequence<T>(r: seq<T>, s: seq<T>)
    decreases |s|
  {
    if r == [] then true
    else if s == [] then false
    else (r[0] == s[0] && Subsequence(r[1..], s[1..])) || Subsequence(r, s[1..])
  }
}
