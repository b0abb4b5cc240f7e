/** Small value types shared by the other modules, and the one search
    primitive they all use: the position of the first element of a sequence
    that satisfies a predicate (an iterator's `position`). */
module Util {

  datatype Option<+T> = None | Some(value: T)

  datatype Result<+R, +E> = Success(value: R) | Failure(error: E)

  /** Index of the first element of `s` satisfying `p`, or None when no
      element does. */
  function Position<T>(s: seq<T>, p: T -> bool): (r: Option<nat>)
    ensures r.Some? ==> r.value < |s| && p(s[r.value])
    ensures r.Some? ==> forall j :: 0 <= j < r.value ==> !p(s[j])
    ensures r.None? <==> forall j :: 0 <= j < |s| ==> !p(s[j])
  {
    if |s| == 0 then None
    else if p(s[0]) then Some(0)
    else match Position(s[1..], p)
      case None => None
      case Some(k) => Some(k + 1)
  }

  function Square(a: real): (r: real)
    ensures r >= 0.0
  {
    a * a
  }
}
