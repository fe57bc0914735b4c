/** Small helpers shared by every module: optional values, results, first match. */
module Util {

  datatype Option<+T> = None | Some(value: T) {
    /** The `dict.get(key, default)` reading of an optional value. */
    function GetOr(default: T): T {
      match this
      case Some(v) => v
      case None => default
    }
  }

  datatype Result<+T, +E> = Ok(value: T) | Err(error: E)

  /** Index of the first occurrence of `x` in `s`: what a query's `.first()` returns
      when rows are scanned in primary-key order. */
  function PrimerIndice<T(==)>(s: seq<T>, x: T): (r: Option<nat>)
    ensures r.Some? ==> r.value < |s| && s[r.value] == x
    ensures r.Some? ==> forall j :: 0 <= j < r.value ==> s[j] != x
    ensures r.None? <==> x !in s
  {
    if |s| == 0 then None
    else if s[0] == x then Some(0)
    else
      match PrimerIndice(s[1..], x)
      case None => None
      case Some(k) => Some(k + 1)
  }
}
