/** Failure-compatible wrappers and a first-match search shared by the
    cache, the session store and the user store. */
module Common {

  datatype Option<+T> = None | Some(value: T)

  /** The outcome of a service call that the source either returns or throws. */
  datatype Result<+T, +E> = Success(value: T) | Failure(error: E)

  /** Index of the first element satisfying `p`: what a repository's
      `findOne` returns when several documents match the filter. */
  function FirstIndex<T>(s: seq<T>, p: T -> bool): (r: Option<nat>)
    ensures r.Some? ==> r.value < |s| && p(s[r.value])
    ensures r.Some? ==> forall j :: 0 <= j < r.value ==> !p(s[j])
    ensures r.None? ==> forall j :: 0 <= j < |s| ==> !p(s[j])
  {
    if s == [] then None
    else if p(s[0]) then Some(0)
    else match FirstIndex(s[1..], p)
      case None => None
      case Some(i) => Some(i + 1)
  }
}
