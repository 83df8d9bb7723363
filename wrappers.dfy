/** Optional values, results and the sequence helpers shared by the exporter and
    importer models. */
module Wrappers {

  datatype Option<+T> = None | Some(value: T)

  /** The outcome of a step that may raise, as the source's Python exceptions do. */
  datatype Result<+T, +E> = Ok(value: T) | Err(error: E)

  predicate Distinct<T(==)>(s: seq<T>) {
    forall i, j :: 0 <= i < j < |s| ==> s[i] != s[j]
  }

  /** list.index: the position of the first occurrence. */
  function IndexOf<T(==)>(s: seq<T>, x: T): (i: nat)
    requires x in s
    ensures i < |s| && s[i] == x
    ensures forall j :: 0 <= j < i ==> s[j] != x
  {
    if s[0] == x then 0 else 1 + IndexOf(s[1..], x)
  }
}
