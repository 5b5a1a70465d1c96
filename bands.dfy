/** The first-match scan that both severity tables use: an ordered list of
    inclusive upper bounds, searched from the lowest, whose last entry also
    catches every value above all bounds. */
module Bands {

  /** The bound of each table entry, in table order. */
  function Bounds<T>(table: seq<T>, bound: T -> int): (bounds: seq<int>)
    ensures |bounds| == |table|
    ensures forall i | 0 <= i < |table| :: bounds[i] == bound(table[i])
  {
    if table == [] then [] else [bound(table[0])] + Bounds(table[1..], bound)
  }

  predicate StrictlyIncreasing(bounds: seq<int>) {
    forall i, j | 0 <= i < j < |bounds| :: bounds[i] < bounds[j]
  }

  /** Index of the first band whose bound is at least v; the last band when
      v exceeds every bound. */
  function FirstBandIndex(bounds: seq<int>, v: real): (k: nat)
    requires |bounds| > 0
    ensures k < |bounds|
    ensures forall j | 0 <= j < k :: (bounds[j] as real) < v
    ensures v <= bounds[k] as real || k == |bounds| - 1
    decreases |bounds|
  {
    if v <= bounds[0] as real || |bounds| == 1 then 0
    else 1 + FirstBandIndex(bounds[1..], v)
  }

  /** Over increasing bounds, band k is chosen exactly when v lies above the
      previous bound and at or below its own (or k is the catch-all). */
  lemma BandCharacterization(bounds: seq<int>, v: real, k: nat)
    requires StrictlyIncreasing(bounds) && k < |bounds|
    ensures FirstBandIndex(bounds, v) == k
        <==> (k == 0 || (bounds[k - 1] as real) < v) && (v <= bounds[k] as real || k == |bounds| - 1)
  {
  }

  /** A larger value never lands in a lower band. */
  lemma BandMonotone(bounds: seq<int>, v: real, w: real)
    requires |bounds| > 0 && v <= w
    ensures FirstBandIndex(bounds, v) <= FirstBandIndex(bounds, w)
  {
  }

  /** Over increasing bounds, a larger value never gets a lower bound. */
  lemma BoundMonotone(bounds: seq<int>, v: real, w: real)
    requires StrictlyIncreasing(bounds) && |bounds| > 0 && v <= w
    ensures bounds[FirstBandIndex(bounds, v)] <= bounds[FirstBandIndex(bounds, w)]
  {
    BandMonotone(bounds, v, w);
  }
}
