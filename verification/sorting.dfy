/** Stable sorting by a key. */
module Sorting {
  /** Insert after the last element whose key is not greater: the sort is stable. */
  function InsertBy<T>(key: T -> int, x: T, sorted: seq<T>): seq<T> {
    if sorted == [] then [x]
    else
      var n := |sorted| - 1;
      if key(sorted[n]) <= key(x) then sorted + [x] else InsertBy(key, x, sorted[..n]) + [sorted[n]]
  }

  function SortBy<T>(key: T -> int, xs: seq<T>): seq<T> {
    if xs == [] then [] else InsertBy(key, xs[|xs| - 1], SortBy(key, xs[..|xs| - 1]))
  }
}
