/** The target-weight map handed to the rebalancer, one per regime. */
module Targets {
  import opened Seqs
  import opened Dicts
  import opened Instruments

  /** OUT regime, `{**dict.fromkeys(HLD_IN, 0), **HLD_OUT}`: every risk-off asset at
      its selected weight, every risk-on asset that is not also risk-off at 0. */
  function TargetOut(hldIn: Weights, hldOut: Weights): (w: Weights)
    requires hldIn.Valid() && hldOut.Valid()
    ensures w.Valid()
    ensures forall k :: k in w.vals <==> k in hldIn.vals || k in hldOut.vals
    ensures forall k :: k in hldOut.vals ==> w.vals[k] == hldOut.vals[k]
    ensures forall k :: k in hldIn.vals && k !in hldOut.vals ==> w.vals[k] == 0.0
    ensures |hldIn.keys| <= |w.keys| && w.keys[..|hldIn.keys|] == hldIn.keys
  {
    Merge(FromKeys(hldIn, 0.0), hldOut)
  }

  /** IN regime, `{**HLD_IN, **dict.fromkeys(HLD_OUT, 0)}`: every risk-off asset at 0,
      every risk-on asset that is not also risk-off at its `HLD_IN` weight. */
  function TargetIn(hldIn: Weights, hldOut: Weights): (w: Weights)
    requires hldIn.Valid() && hldOut.Valid()
    ensures w.Valid()
    ensures forall k :: k in w.vals <==> k in hldIn.vals || k in hldOut.vals
    ensures forall k :: k in hldOut.vals ==> w.vals[k] == 0.0
    ensures forall k :: k in hldIn.vals && k !in hldOut.vals ==> w.vals[k] == hldIn.vals[k]
    ensures |hldIn.keys| <= |w.keys| && w.keys[..|hldIn.keys|] == hldIn.keys
  {
    Merge(hldIn, FromKeys(hldOut, 0.0))
  }

  /** Key order of both target maps: the risk-on assets in `HLD_IN`'s order, then the
      risk-off assets not already listed, in `HLD_OUT`'s order. This is the order in
      which equal deltas reach the rebalancer's stable sort. */
  lemma TargetKeyOrder(hldIn: Weights, hldOut: Weights)
    requires hldIn.Valid() && hldOut.Valid()
    ensures TargetOut(hldIn, hldOut).keys == hldIn.keys + Filter(hldOut.keys, k => k !in hldIn.vals)
    ensures TargetIn(hldIn, hldOut).keys == hldIn.keys + Filter(hldOut.keys, k => k !in hldIn.vals)
  {
    var zeroed := FromKeys(hldIn, 0.0);
    FilterAgree(hldOut.keys, k => k !in zeroed.vals, k => k !in hldIn.vals);
  }
}
