/** Selecting the positions of a sequence whose elements pass a test,
    in order.  Both loops of the core that filter while they append
    (content items of type "text", blocks of type "tool_use") are
    characterised by it. */
module Sequences {

  /** The indices i of s with p(s[i]), strictly increasing: every
      index it lists passes, no passing index is missed. */
  function Positions<T>(s: seq<T>, p: T -> bool): (idx: seq<nat>)
    ensures forall k :: 0 <= k < |idx| ==> idx[k] < |s| && p(s[idx[k]])
    ensures forall k, l :: 0 <= k < l < |idx| ==> idx[k] < idx[l]
    ensures forall i :: 0 <= i < |s| && p(s[i]) ==> i in idx
    decreases |s|
  {
    if |s| == 0 then []
    else Positions(s[..|s| - 1], p) + (if p(s[|s| - 1]) then [|s| - 1] else [])
  }

  /** Extending s by one element keeps the positions found so far and
      adds the new index exactly when the new element passes. */
  lemma PositionsSnoc<T>(s: seq<T>, p: T -> bool)
    requires |s| > 0
    ensures var pre := Positions(s[..|s| - 1], p);
            var idx := Positions(s, p);
            |idx| == |pre| + (if p(s[|s| - 1]) then 1 else 0) &&
            (forall k :: 0 <= k < |pre| ==> idx[k] == pre[k]) &&
            (p(s[|s| - 1]) ==> idx[|pre|] == |s| - 1)
  {
  }
}
