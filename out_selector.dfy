/** Momentum selection of the risk-off asset: rank the candidates by their trailing
    return and hold the leader at weight 1 only if that return is positive. */
module OutSelector {
  import opened Seqs
  import opened Dicts
  import opened Instruments
  import opened PriceHistory

  /** `out_mom_lb`: the return compares the newest row with the 40th row from the end. */
  const OutMomLb: nat := 40

  /** Whether `k` is a column of the table (`k in self.history`). */
  function InTable(columns: set<Symbol>): Symbol -> bool {
    k => k in columns
  }

  /** `get_list`: the risk-off assets, in `HLD_OUT` order, that are columns of the table. */
  function Candidates(hldOut: Weights, columns: set<Symbol>): seq<Symbol> {
    Filter(hldOut.keys, InTable(columns))
  }

  /** `price[-1] / price[-40] - 1`, or None (NaN) when either cell is missing. A present
      return is above -100%, and it is positive exactly when the price rose. */
  function Ret(h: seq<Row>, k: Symbol): (r: Option<real>)
    requires |h| >= OutMomLb && PricesPositive(h)
    ensures r.Some? <==> k in h[|h| - 1].close && k in h[|h| - OutMomLb].close
    ensures r.Some? ==> r.value > -1.0
    ensures r.Some? ==> (r.value > 0.0 <==> h[|h| - 1].close[k] > h[|h| - OutMomLb].close[k])
  {
    var now := h[|h| - 1].close;
    var past := h[|h| - OutMomLb].close;
    if k in now && k in past then Some(now[k] / past[k] - 1.0) else None
  }

  /** `a` comes strictly before `b` in a descending sort that puts NaN last. */
  predicate Outranks(a: Option<real>, b: Option<real>) {
    a.Some? && (b.None? || a.value > b.value)
  }

  /** Position of `rets.index[0]`: a candidate no other candidate outranks, the first
      such in `HLD_OUT` order. */
  function Leader(cands: seq<Symbol>, h: seq<Row>): (i: nat)
    requires |cands| > 0 && |h| >= OutMomLb && PricesPositive(h)
    ensures i < |cands|
    ensures forall j :: 0 <= j < |cands| ==> !Outranks(Ret(h, cands[j]), Ret(h, cands[i]))
    ensures forall j :: 0 <= j < i ==> Outranks(Ret(h, cands[i]), Ret(h, cands[j]))
  {
    if |cands| == 1 then 0
    else
      var j := 1 + Leader(cands[1..], h);
      assert forall m :: 1 <= m < |cands| ==> cands[m] == cands[1..][m - 1];
      if Outranks(Ret(h, cands[j]), Ret(h, cands[0])) then j else 0
  }

  /** The new `HLD_OUT` weight of `k`: 1 for the leader when its return is strictly
      positive, 0 for every other asset (and 0 when the leader's return is not positive). */
  function NewWeight(k: Symbol, cands: seq<Symbol>, h: seq<Row>): (w: real)
    requires |h| >= OutMomLb && PricesPositive(h)
    ensures w == 0.0 || w == 1.0
    ensures w == 1.0 ==> k in cands && Ret(h, k).Some? && Ret(h, k).value > 0.0
  {
    if k !in cands then 0.0
    else if k != cands[Leader(cands, h)] then 0.0
    else match Ret(h, k)
      case Some(r) => if r > 0.0 then 1.0 else 0.0
      case None => 0.0
  }

  /** `HLD_OUT` after the selection: the same keys in the same order, every value replaced. */
  function SelectOut(hldOut: Weights, columns: set<Symbol>, h: seq<Row>): (r: Weights)
    requires hldOut.Valid() && |h| >= OutMomLb && PricesPositive(h)
    ensures r.Valid() && r.keys == hldOut.keys && r.vals.Keys == hldOut.vals.Keys
  {
    var cands := Candidates(hldOut, columns);
    Dict(hldOut.keys, map k | k in hldOut.vals :: NewWeight(k, cands, h))
  }

  /** A dict with the keys of `hldOut`, in the same order, holding the new weight of
      every key, is the selection. */
  lemma SelectOutByKeys(hldOut: Weights, r: Weights, columns: set<Symbol>, h: seq<Row>)
    requires hldOut.Valid() && |h| >= OutMomLb && PricesPositive(h)
    requires r.keys == hldOut.keys && r.vals.Keys == hldOut.vals.Keys
    requires forall j :: 0 <= j < |r.keys| ==>
               r.vals[r.keys[j]] == NewWeight(r.keys[j], Candidates(hldOut, columns), h)
    ensures r == SelectOut(hldOut, columns, h)
  {
    var s := SelectOut(hldOut, columns, h);
    forall k | k in r.vals ensures r.vals[k] == s.vals[k] {
      var j :| 0 <= j < |r.keys| && r.keys[j] == k;
    }
  }

  /** Every selected weight is 0 or 1; an asset that is not a column of the table gets 0;
      an asset gets 1 exactly when it is the leader and its return is strictly positive:
      a selected asset is outranked by no candidate and is the leader, and a leader
      whose return is strictly positive is selected. */
  lemma SelectOutFacts(hldOut: Weights, columns: set<Symbol>, h: seq<Row>)
    requires hldOut.Valid() && |h| >= OutMomLb && PricesPositive(h)
    ensures var r := SelectOut(hldOut, columns, h);
            var cands := Candidates(hldOut, columns);
            && (forall k :: k in r.vals ==> r.vals[k] == 0.0 || r.vals[k] == 1.0)
            && (forall k :: k in r.vals && k !in columns ==> r.vals[k] == 0.0)
            && (forall k :: k in r.vals && r.vals[k] == 1.0 ==>
                  && k in columns
                  && Ret(h, k).Some? && Ret(h, k).value > 0.0
                  && (forall c :: c in cands ==> !Outranks(Ret(h, c), Ret(h, k)))
                  && k == cands[Leader(cands, h)])
            && (|cands| > 0 && Ret(h, cands[Leader(cands, h)]).Some? && Ret(h, cands[Leader(cands, h)]).value > 0.0 ==>
                  cands[Leader(cands, h)] in r.vals && r.vals[cands[Leader(cands, h)]] == 1.0)
  {
    var cands := Candidates(hldOut, columns);
    forall k | k in hldOut.vals && NewWeight(k, cands, h) == 1.0
      ensures forall c :: c in cands ==> !Outranks(Ret(h, c), Ret(h, k))
    {
      var i := Leader(cands, h);
      assert k == cands[i];
      forall c | c in cands ensures !Outranks(Ret(h, c), Ret(h, k)) {
        var j :| 0 <= j < |cands| && cands[j] == c;
      }
    }
  }

  /** At most one risk-off asset is held. */
  lemma {:induction false} AtMostOneSelected(hldOut: Weights, columns: set<Symbol>, h: seq<Row>, a: Symbol, b: Symbol)
    requires hldOut.Valid() && |h| >= OutMomLb && PricesPositive(h)
    requires a in hldOut.vals && b in hldOut.vals
    requires SelectOut(hldOut, columns, h).vals[a] == 1.0 && SelectOut(hldOut, columns, h).vals[b] == 1.0
    ensures a == b
  {
    var cands := Candidates(hldOut, columns);
    assert NewWeight(a, cands, h) == 1.0 && NewWeight(b, cands, h) == 1.0;
  }

  /** With no risk-off asset in the table, every weight is 0: stand aside in cash. */
  lemma NoCandidateMeansCash(hldOut: Weights, columns: set<Symbol>, h: seq<Row>)
    requires hldOut.Valid() && |h| >= OutMomLb && PricesPositive(h)
    requires Candidates(hldOut, columns) == []
    ensures forall k :: k in SelectOut(hldOut, columns, h).vals ==> SelectOut(hldOut, columns, h).vals[k] == 0.0
  {
  }

  /** Worked case: two risk-off assets with trailing returns +5% and -3%; the first
      is held at weight 1 and the second at 0, whichever order they are listed in. */
  lemma TwoCandidatesExample(hldOut: Weights, columns: set<Symbol>, h: seq<Row>, up: Symbol, down: Symbol)
    requires hldOut.Valid() && |h| >= OutMomLb && PricesPositive(h)
    requires hldOut.vals.Keys == {up, down} && up in columns && down in columns
    requires Ret(h, up) == Some(0.05) && Ret(h, down) == Some(-0.03)
    ensures SelectOut(hldOut, columns, h).vals[up] == 1.0
    ensures SelectOut(hldOut, columns, h).vals[down] == 0.0
  {
    var cands := Candidates(hldOut, columns);
    assert up in cands && down in cands;
    var i := Leader(cands, h);
    var ju :| 0 <= ju < |cands| && cands[ju] == up;
    assert cands[i] in cands;
    assert cands[i] in hldOut.vals;
    assert cands[i] in {up, down};
  }
}
