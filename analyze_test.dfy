/** The token-list comparison the analyze integration test uses. */
module AnalyzeTest {
  import opened Wrappers
  import opened Analyze

  /**
   * Nil-aware equality of token lists: two nils are equal, nil never equals a
   * list (not even an empty one), and two lists are equal when they have the
   * same length and agree token by token on all five fields.
   */
  method IsEqual(a: Option<seq<Token>>, b: Option<seq<Token>>) returns (r: bool)
    ensures a.None? && b.None? ==> r
    ensures a.None? != b.None? ==> !r
    ensures a.Some? && b.Some? && |a.value| != |b.value| ==> !r
    ensures a.Some? && b.Some? && |a.value| == |b.value| ==>
      (r <==> forall i :: 0 <= i < |a.value| ==> a.value[i] == b.value[i])
    ensures r <==> a == b
  {
    if a.None? && b.None? {
      return true;
    }
    if a.None? || b.None? {
      return false;
    }
    var xs, ys := a.value, b.value;
    if |xs| != |ys| {
      return false;
    }
    var i := 0;
    while i < |xs|
      invariant 0 <= i <= |xs|
      invariant forall j :: 0 <= j < i ==> xs[j] == ys[j]
    {
      if xs[i] != ys[i] {
        return false;
      }
      i := i + 1;
    }
    assert xs == ys;
    return true;
  }
}
