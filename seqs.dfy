/** The early-exit search over a slice that the request validators perform. */
module Seqs {
  import opened Wrappers

  /**
   * Index of the first element that fails a check, as a `for` loop that returns at the
   * first offending element finds it; None when every element passes.
   */
  function FirstWhere<T>(s: seq<T>, bad: T -> bool): (r: Option<nat>)
    ensures r.Some? ==> r.value < |s| && bad(s[r.value])
    ensures r.Some? ==> forall j :: 0 <= j < r.value ==> !bad(s[j])
    ensures r.None? <==> forall j :: 0 <= j < |s| ==> !bad(s[j])
  {
    if |s| == 0 then None
    else if bad(s[0]) then Some(0)
    else match FirstWhere(s[1..], bad)
      case None => None
      case Some(k) => Some(k + 1)
  }
}
