/** Optional values, results with an error, and lists without repeats. */
module Wrappers {
  datatype Option<+T> = None | Some(value: T)

  datatype Result<+T, +E> = Ok(value: T) | Err(error: E)

  ghost predicate Distinct<T>(q: seq<T>) {
    forall j, k {:trigger q[j], q[k]} :: 0 <= j < k < |q| ==> q[j] != q[k]
  }
}
