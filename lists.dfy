/** `Array.prototype.find`: the first element that satisfies a test. */
module Lists {
  import opened Wrappers

  /** The position of the first element satisfying `p`, if any. */
  function FindFirst<T>(xs: seq<T>, p: T -> bool): (r: Option<nat>)
    ensures r.Some? ==> r.value < |xs| && p(xs[r.value]) &&
                        forall j :: 0 <= j < r.value ==> !p(xs[j])
    ensures r.None? <==> forall k :: 0 <= k < |xs| ==> !p(xs[k])
  {
    if xs == [] then None
    else if p(xs[0]) then Some(0)
    else
      var r := FindFirst(xs[1..], p);
      assert forall k :: 1 <= k < |xs| ==> xs[k] == xs[1..][k - 1];
      if r.Some? then Some(r.value + 1) else None
  }
}
