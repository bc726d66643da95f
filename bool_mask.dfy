/**
 * numpy boolean-mask indexing `a[mask]`: the rows whose mask entry is true,
 * in their original order.
 */
module BoolMask {

  /** `s[mask]`, defined by what it keeps of each prefix. */
  function Select<T>(s: seq<T>, mask: seq<bool>): (r: seq<T>)
    requires |mask| == |s|
    ensures |r| <= |s|
    ensures |r| == |s| <==> forall i :: 0 <= i < |mask| ==> mask[i]
    ensures |r| == 0 <==> forall i :: 0 <= i < |mask| ==> !mask[i]
  {
    if |s| == 0 then []
    else
      var n := |s| - 1;
      Select(s[..n], mask[..n]) + (if mask[n] then [s[n]] else [])
  }

  /** The positions at which `mask` is true, in increasing order (`np.nonzero`). */
  function TrueIndices(mask: seq<bool>): (idx: seq<nat>)
    ensures forall k :: 0 <= k < |idx| ==> idx[k] < |mask| && mask[idx[k]]
    ensures forall i :: 0 <= i < |mask| && mask[i] ==> i in idx
    ensures forall k, l :: 0 <= k < l < |idx| ==> idx[k] < idx[l]
  {
    if |mask| == 0 then []
    else
      var n := |mask| - 1;
      TrueIndices(mask[..n]) + (if mask[n] then [n] else [])
  }

  /**
   * Mask selection keeps exactly the masked positions, in order: entry `k` of
   * `s[mask]` is entry `TrueIndices(mask)[k]` of `s`.
   */
  lemma {:induction false} SelectAt<T>(s: seq<T>, mask: seq<bool>)
    requires |mask| == |s|
    ensures |Select(s, mask)| == |TrueIndices(mask)|
    ensures forall k :: 0 <= k < |Select(s, mask)| ==> Select(s, mask)[k] == s[TrueIndices(mask)[k]]
  {
    if |s| > 0 {
      var n := |s| - 1;
      SelectAt(s[..n], mask[..n]);
    }
  }
}
