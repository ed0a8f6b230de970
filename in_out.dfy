/** The strategy's state object and its daily cycle: the density deque, the regime
    list, the risk-off weight map and the price table, updated in place. */
module Strategy {
  import opened Seqs
  import opened Dicts
  import opened Instruments
  import opened PriceHistory
  import opened Signal
  import opened Regime
  import opened Targets
  import opened OutSelector
  import opened Rebalance

  /** What one daily check ends with. */
  datatype CheckResult =
    | NoHistory                   // the price table is empty: nothing is done
    | ShortHistory                // under 40 rows: the momentum lookup fails after the regime update
    | Traded(trade: TradeResult)  // the rebalancer ran (or failed on a zero portfolio value)

  function Sum(s: seq<real>): real {
    if s == [] then 0.0 else s[0] + Sum(s[1..])
  }

  /** A density snapshot as the strategy saves it: at least the five seeds' worth of
      entries, each in [0, 1]. */
  ghost predicate IsSnapshot(s: seq<real>) {
    5 <= |s| && InUnit(s)
  }

  /** The live-mode reload: an all-zero deque is replaced by the last 100 entries of a
      stored snapshot, when one exists. Outside live mode, or once a density is nonzero,
      the deque is kept; a reload from a saved snapshot is a valid deque again. */
  function Reloaded(dens: seq<real>, liveMode: bool, stored: Option<seq<real>>): (r: seq<real>)
    ensures !liveMode || Sum(dens) != 0.0 ==> r == dens
    ensures liveMode && Sum(dens) == 0.0 && stored.Some? ==>
              |r| == (if |stored.value| <= DensCapacity then |stored.value| else DensCapacity)
              && r == stored.value[|stored.value| - |r|..]
    ensures r != dens ==> stored.Some? && |r| <= DensCapacity && |r| <= |stored.value|
                          && r == stored.value[|stored.value| - |r|..]
    ensures IsSnapshot(dens) && |dens| <= DensCapacity && (stored.Some? ==> IsSnapshot(stored.value)) ==>
              IsSnapshot(r) && |r| <= DensCapacity
  {
    if liveMode && Sum(dens) == 0.0 && stored.Some? then Newest(stored.value, DensCapacity) else dens
  }

  /** The density deque a daily check hands to the regime machine holds at least six
      entries, so the trailing window `[-45:-2]` holds at least four. */
  lemma RegimeInputLongEnough(s: seq<real>, day: DayFlags)
    requires 5 <= |s| <= DensCapacity
    ensures 6 <= |NextDensities(s, day)| <= DensCapacity
    ensures 4 <= |Trailing(NextDensities(s, day))|
  {
  }

  /** The first loop of `out_mom_sel`: `get_list`, the risk-off assets that are
      columns of the price table, in `HLD_OUT` order. */
  method CollectCandidates(hldOut: Weights, columns: set<Symbol>) returns (getList: seq<Symbol>)
    ensures getList == Candidates(hldOut, columns)
    ensures forall k :: k in getList <==> k in hldOut.keys && k in columns
  {
    var keys := hldOut.keys;
    getList := [];
    var i := 0;
    while i < |keys|
      invariant 0 <= i <= |keys|
      invariant getList == Filter(keys[..i], InTable(columns))
    {
      FilterPrefixStep(keys, i, InTable(columns));
      if keys[i] in columns {
        getList := getList + [keys[i]];
      }
      i := i + 1;
    }
    assert keys[..i] == keys;
  }

  class InOut {
    /** `HLD_IN`: the risk-on asset at weight 1; never changed. */
    const hldIn: Weights
    /** `HLD_OUT`: the risk-off weights, rewritten by the momentum selection. */
    var hldOut: Weights
    /** `signal_dens`: the bounded deque of smoothed densities. */
    var signalDens: seq<real>
    /** `be_in`: the append-only regime list. */
    var beIn: seq<Bit>
    /** `history`: the closing-price table and its columns. */
    var history: seq<Row>
    var columns: set<Symbol>

    ghost predicate Valid()
      reads this
    {
      WeightsValid() && DensValid() && |beIn| > 0 && WellFormed(history, columns)
    }

    /** Both weight maps are dicts. */
    ghost predicate WeightsValid()
      reads this`hldOut
    {
      hldIn.Valid() && hldOut.Valid()
    }

    /** The deque holds between the five seeds' worth and 100 densities, each in [0, 1]. */
    ghost predicate DensValid()
      reads this`signalDens
    {
      5 <= |signalDens| <= DensCapacity && InUnit(signalDens)
    }

    /** The state after set-up: one risk-on and one risk-off asset at weight 1, five zero
        densities, regime IN, and the warm-up price table. */
    constructor (bull: Symbol, bear: Symbol, warmUp: seq<Row>, warmUpColumns: set<Symbol>)
      requires WellFormed(warmUp, warmUpColumns)
      ensures Valid()
      ensures hldIn == Dict([bull], map[bull := 1.0]) && hldOut == Dict([bear], map[bear := 1.0])
      ensures signalDens == Seeds && beIn == [1]
      ensures history == warmUp && columns == warmUpColumns
    {
      hldIn := Dict([bull], map[bull := 1.0]);
      hldOut := Dict([bear], map[bear := 1.0]);
      signalDens := Seeds;
      beIn := [1];
      history := warmUp;
      columns := warmUpColumns;
    }

    /** `consolidation_handler`: store a daily close and keep the last 1260 rows. */
    method ConsolidationHandler(t: int, sym: Symbol, close: real)
      requires Valid() && close > 0.0
      modifies this`history, this`columns
      ensures Valid()
      ensures history == AddBar(old(history), t, sym, close)
      ensures columns == old(columns) + {sym}
      ensures BarAdded(history, old(history), old(columns), t, sym, close)
    {
      AddBarFacts(history, columns, t, sym, close);
      history, columns := AddBar(history, t, sym, close), columns + {sym};
    }

    /** The live-mode reload of a persisted deque. */
    method Reload(liveMode: bool, stored: Option<seq<real>>)
      requires Valid() && (stored.Some? ==> IsSnapshot(stored.value))
      modifies this`signalDens
      ensures Valid()
      ensures signalDens == Reloaded(old(signalDens), liveMode, stored)
    {
      if liveMode && Sum(signalDens) == 0.0 && stored.Some? {
        signalDens := Newest(stored.value, DensCapacity);
      }
    }

    /** Steps 4-5: filter the debt flag, count, smooth and append to the deque. */
    method UpdateDensity(day: DayFlags)
      requires Valid()
      modifies this`signalDens
      ensures Valid()
      ensures signalDens == NextDensities(old(signalDens), day)
      ensures |signalDens| >= 6
      ensures signalDens[|signalDens| - 1]
              == Ema(old(signalDens)[|old(signalDens)| - 1], CurrentDensity(DebtFilter(day.extreme, day.aboveMedian)))
    {
      var f := DebtFilter(day.extreme, day.aboveMedian);
      var cur := CurrentDensity(f);
      var add := Ema(signalDens[|signalDens| - 1], cur);
      NextDensitiesInRange(signalDens, day);
      signalDens := BoundedAppend(signalDens, add, DensCapacity);
    }

    /** Step 6: the two independent regime conditions, OUT checked first. */
    method DecideRegime()
      requires Valid() && |signalDens| >= 3
      modifies this`beIn
      ensures Valid()
      ensures beIn == old(beIn) + RegimeStep(signalDens)
    {
      if OutFires(signalDens) {
        beIn := beIn + [0];
      }
      if InFires(signalDens) {
        beIn := beIn + [1];
      }
    }

    /** `out_mom_sel`: collect the risk-off assets present in the table, rank them by
        momentum, and rewrite every `HLD_OUT` weight. Returns false where `main.py`'s
        row lookup `iloc[-40]` fails, leaving `HLD_OUT` as it was. */
    method OutMomSel() returns (ok: bool)
      requires Valid()
      modifies this`hldOut
      ensures Valid()
      ensures ok <==> IsEmpty(history, columns) || |history| >= OutMomLb
      ensures hldOut == if !IsEmpty(history, columns) && |history| >= OutMomLb
                        then SelectOut(old(hldOut), columns, history) else old(hldOut)
    {
      if IsEmpty(history, columns) {
        return true;
      }
      var keys := hldOut.keys;
      var getList := CollectCandidates(hldOut, columns);
      if |history| < OutMomLb {
        return false;
      }
      ghost var before := hldOut;
      var i := 0;
      while i < |keys|
        invariant 0 <= i <= |keys|
        invariant hldOut.Valid() && hldOut.keys == keys && hldOut.vals.Keys == before.vals.Keys
        invariant getList == Candidates(before, columns)
        invariant forall j :: 0 <= j < i ==> hldOut.vals[keys[j]] == NewWeight(keys[j], getList, history)
      {
        var sec := keys[i];
        var w: real;
        if sec !in getList {
          w := 0.0;
        } else if sec != getList[Leader(getList, history)] {
          w := 0.0;
        } else {
          var ret := Ret(history, sec);
          w := if ret.Some? && ret.value > 0.0 then 1.0 else 0.0;
        }
        assert w == NewWeight(sec, getList, history);
        hldOut := Put(hldOut, sec, w);
        i := i + 1;
      }
      SelectOutByKeys(before, hldOut, columns, history);
      ok := true;
    }

    /** Step 7: for regime OUT, select the risk-off asset and trade into it; for regime
        IN, trade into the risk-on asset. */
    method ExecuteTrades(p: Portfolio, quoted: set<Symbol>) returns (r: CheckResult)
      requires Valid() && !IsEmpty(history, columns)
      modifies this`hldOut
      ensures Valid()
      ensures beIn[|beIn| - 1] == 1 ==>
                hldOut == old(hldOut) && r == Traded(TradeSpec(TargetIn(hldIn, hldOut), p, quoted))
      ensures beIn[|beIn| - 1] == 0 && |history| < OutMomLb ==>
                hldOut == old(hldOut) && r == ShortHistory
      ensures beIn[|beIn| - 1] == 0 && |history| >= OutMomLb ==>
                hldOut == SelectOut(old(hldOut), columns, history)
                && r == Traded(TradeSpec(TargetOut(hldIn, hldOut), p, quoted))
    {
      // `be_in` holds only 0 and 1, so the strategy's two `if`s are exclusive.
      if beIn[|beIn| - 1] == 0 {
        var ok := OutMomSel();
        if !ok {
          return ShortHistory;
        }
        var t := Trade(TargetOut(hldIn, hldOut), p, quoted);
        r := Traded(t);
      } else {
        var t := Trade(TargetIn(hldIn, hldOut), p, quoted);
        r := Traded(t);
      }
    }

    /** `inout_check`: reload, update the density, decide the regime, then trade for
        the regime `be_in[-1]` names. */
    method InOutCheck(liveMode: bool, stored: Option<seq<real>>, day: DayFlags, p: Portfolio, quoted: set<Symbol>)
      returns (r: CheckResult)
      requires Valid() && (stored.Some? ==> IsSnapshot(stored.value))
      modifies this`signalDens, this`beIn, this`hldOut
      ensures Valid()
      ensures IsEmpty(history, columns) ==>
                r == NoHistory && signalDens == old(signalDens) && beIn == old(beIn) && hldOut == old(hldOut)
      ensures !IsEmpty(history, columns) ==>
                && signalDens == NextDensities(Reloaded(old(signalDens), liveMode, stored), day)
                && beIn == old(beIn) + RegimeStep(signalDens)
      ensures !IsEmpty(history, columns) && beIn[|beIn| - 1] == 1 ==>
                hldOut == old(hldOut) && r == Traded(TradeSpec(TargetIn(hldIn, hldOut), p, quoted))
      ensures !IsEmpty(history, columns) && beIn[|beIn| - 1] == 0 && |history| < OutMomLb ==>
                hldOut == old(hldOut) && r == ShortHistory
      ensures !IsEmpty(history, columns) && beIn[|beIn| - 1] == 0 && |history| >= OutMomLb ==>
                hldOut == SelectOut(old(hldOut), columns, history)
                && r == Traded(TradeSpec(TargetOut(hldIn, hldOut), p, quoted))
    {
      if IsEmpty(history, columns) {
        return NoHistory;
      }
      Reload(liveMode, stored);
      UpdateDensity(day);
      DecideRegime();
      r := ExecuteTrades(p, quoted);
    }
  }
}
