/** Python's `max` of a non-empty list of integers. */
module Lists {

  /** `max(xs)`: an element of xs that no element exceeds. */
  function Max(xs: seq<int>): (m: int)
    requires |xs| > 0
    ensures m in xs
    ensures forall i :: 0 <= i < |xs| ==> xs[i] <= m
  {
    if |xs| == 1 then xs[0]
    else
      var rest := Max(xs[1..]);
      if xs[0] >= rest then xs[0] else rest
  }

  /** max is determined by those two properties. */
  lemma MaxUnique(xs: seq<int>, m: int)
    requires m in xs && forall i :: 0 <= i < |xs| ==> xs[i] <= m
    ensures Max(xs) == m
  {
    var k :| 0 <= k < |xs| && xs[k] == Max(xs);
  }
}
