/** Failure-carrying datatypes and sequence helpers shared by the other modules. */
module Basics {
  datatype Option<+T> = None | Some(value: T)

  datatype Result<+T, +E> = Ok(value: T) | Err(error: E)

  /** The first position of c in s, or |s|. */
  function IndexOf<T(==)>(s: seq<T>, c: T): (p: nat)
    ensures p <= |s| && (p < |s| ==> s[p] == c) && c !in s[..p]
  {
    if s == [] || s[0] == c then 0 else 1 + IndexOf(s[1..], c)
  }

  function Max(a: int, b: int): int {
    if a < b then b else a
  }
}
