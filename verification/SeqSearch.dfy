/** Linear search. */
module SeqSearch {
  import opened Options

  /** The first position whose element passes the test. */
  function First<T>(s: seq<T>, test: T -> bool): (r: Option<nat>)
    ensures r.Some? ==> r.value < |s| && test(s[r.value]) && forall i :: 0 <= i < r.value ==> !test(s[i])
    ensures r.None? ==> forall i :: 0 <= i < |s| ==> !test(s[i])
  {
    if s == [] then None
    else if test(s[0]) then Some(0)
    else
      var r := First(s[1..], test);
      assert forall i :: 1 <= i < |s| ==> s[i] == s[1..][i - 1];
      if r.Some? then Some(r.value + 1) else None
  }
}
