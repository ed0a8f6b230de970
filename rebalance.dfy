/** The rebalancer: turn target weights and current holdings into an ordered list of
    "set holdings" instructions, weight-reducing trades first. */
module Rebalance {
  import opened Seqs
  import opened Dicts
  import opened Instruments

  /** A position as the brokerage reports it. */
  datatype Holding = Holding(quantity: real, price: real)

  predicate IsLong(h: Holding) { h.quantity > 0.0 }
  predicate IsShort(h: Holding) { h.quantity < 0.0 }
  /** Invested means any position, long or short. */
  predicate Invested(h: Holding) { IsLong(h) || IsShort(h) }

  datatype Portfolio = Portfolio(holdings: map<Symbol, Holding>, totalValue: real)

  /** The position in `k`; an instrument the portfolio does not list is flat. */
  function HoldingOf(p: Portfolio, k: Symbol): Holding {
    if k in p.holdings then p.holdings[k] else Holding(0.0, 0.0)
  }

  /** The held weights can be computed: no position needs dividing by a zero total value. */
  predicate CanWeigh(p: Portfolio) {
    |p.holdings| == 0 || p.totalValue != 0.0
  }

  /** `hold_wt.get(k, 0)`: quantity times price over total portfolio value. */
  function HeldWeight(p: Portfolio, k: Symbol): real
    requires CanWeigh(p)
  {
    if k in p.holdings then p.holdings[k].quantity * p.holdings[k].price / p.totalValue else 0.0
  }

  /** `order_wt[k]`: how far the target weight is above the held weight. */
  function Delta(w: Weights, p: Portfolio, k: Symbol): real
    requires k in w.vals && CanWeigh(p)
  {
    w.vals[k] - HeldWeight(p, k)
  }

  /** One target with its order delta. */
  datatype Item = Item(sec: Symbol, weight: real, delta: real)

  /** The item is the target of `sec` in `w`, with its delta. */
  ghost predicate Describes(x: Item, w: Weights, p: Portfolio)
    requires CanWeigh(p)
  {
    x.sec in w.vals && x.weight == w.vals[x.sec] && x.delta == Delta(w, p, x.sec)
  }

  /** The targets in dict order, each with its delta. */
  function Items(w: Weights, p: Portfolio): (r: seq<Item>)
    requires w.Valid() && CanWeigh(p)
  {
    seq(|w.keys|, i requires 0 <= i < |w.keys| && w.keys[i] in w.vals =>
      Item(w.keys[i], w.vals[w.keys[i]], Delta(w, p, w.keys[i])))
  }

  function Secs(s: seq<Item>): seq<Symbol> {
    if s == [] then [] else [s[0].sec] + Secs(s[1..])
  }

  predicate SortedByDelta(s: seq<Item>) {
    forall i, j :: 0 <= i < j < |s| ==> s[i].delta <= s[j].delta
  }

  /** Insert `x` before the first element whose delta is not smaller. */
  function Insert(x: Item, s: seq<Item>): seq<Item> {
    if s == [] || x.delta <= s[0].delta then [x] + s else [s[0]] + Insert(x, s[1..])
  }

  /** `sorted(..., key=delta)`: a stable ascending sort by delta. */
  function SortByDelta(s: seq<Item>): seq<Item> {
    if s == [] then [] else Insert(s[0], SortByDelta(s[1..]))
  }

  /** The items whose delta is `v`, in order. */
  function WithDelta(v: real): Item -> bool {
    (x: Item) => x.delta == v
  }

  lemma {:induction false} InsertPermutes(x: Item, s: seq<Item>)
    ensures multiset(Insert(x, s)) == multiset(s) + multiset{x}
  {
    if s != [] && s[0].delta < x.delta {
      InsertPermutes(x, s[1..]);
      assert s == [s[0]] + s[1..];
    }
  }

  lemma {:induction false} InsertSecs(x: Item, s: seq<Item>)
    ensures multiset(Secs(Insert(x, s))) == multiset(Secs(s)) + multiset{x.sec}
  {
    if s == [] || x.delta <= s[0].delta {
      assert ([x] + s)[1..] == s;
    } else {
      InsertSecs(x, s[1..]);
      assert ([s[0]] + Insert(x, s[1..]))[1..] == Insert(x, s[1..]);
    }
  }

  lemma {:induction false} InsertSorted(x: Item, s: seq<Item>)
    requires SortedByDelta(s)
    ensures SortedByDelta(Insert(x, s))
  {
    if s != [] && s[0].delta < x.delta {
      InsertSorted(x, s[1..]);
      InsertPermutes(x, s[1..]);
      var t := Insert(x, s[1..]);
      forall j | 0 <= j < |t| ensures s[0].delta <= t[j].delta {
        assert t[j] in multiset(t);
        if t[j] != x {
          assert t[j] in multiset(s[1..]);
        }
      }
    }
  }

  lemma {:induction false} InsertStable(x: Item, s: seq<Item>, v: real)
    ensures Filter(Insert(x, s), WithDelta(v)) == (if x.delta == v then [x] else []) + Filter(s, WithDelta(v))
  {
    if s == [] || x.delta <= s[0].delta {
      assert ([x] + s)[1..] == s;
    } else {
      InsertStable(x, s[1..], v);
      assert ([s[0]] + Insert(x, s[1..]))[1..] == Insert(x, s[1..]);
    }
  }

  /** The sort is a permutation of the items. */
  lemma {:induction false} SortPermutes(s: seq<Item>)
    ensures multiset(SortByDelta(s)) == multiset(s)
  {
    if s != [] {
      SortPermutes(s[1..]);
      InsertPermutes(s[0], SortByDelta(s[1..]));
      assert s == [s[0]] + s[1..];
    }
  }

  /** The sorted securities are a permutation of the original ones. */
  lemma {:induction false} SortPermutesSecs(s: seq<Item>)
    ensures multiset(Secs(SortByDelta(s))) == multiset(Secs(s))
  {
    if s != [] {
      SortPermutesSecs(s[1..]);
      InsertSecs(s[0], SortByDelta(s[1..]));
      assert Secs(s) == [s[0].sec] + Secs(s[1..]);
    }
  }

  /** The sort orders by delta. */
  lemma {:induction false} SortSorted(s: seq<Item>)
    ensures SortedByDelta(SortByDelta(s))
  {
    if s != [] {
      SortSorted(s[1..]);
      InsertSorted(s[0], SortByDelta(s[1..]));
    }
  }

  /** The sort is stable: the items with any one delta keep their original relative order. */
  lemma {:induction false} SortStable(s: seq<Item>, v: real)
    ensures Filter(SortByDelta(s), WithDelta(v)) == Filter(s, WithDelta(v))
  {
    if s != [] {
      SortStable(s[1..], v);
      InsertStable(s[0], SortByDelta(s[1..]), v);
    }
  }

  lemma {:induction false} SecsAt(s: seq<Item>)
    ensures |Secs(s)| == |s|
    ensures forall i :: 0 <= i < |s| ==> Secs(s)[i] == s[i].sec
  {
    if s != [] {
      SecsAt(s[1..]);
    }
  }

  /** The items list the target keys in dict order, each described faithfully. */
  lemma ItemsFacts(w: Weights, p: Portfolio)
    requires w.Valid() && CanWeigh(p)
    ensures Secs(Items(w, p)) == w.keys
    ensures forall x :: x in Items(w, p) ==> Describes(x, w, p)
    ensures forall k :: k in w.vals ==> exists x :: x in Items(w, p) && x.sec == k
  {
    var s := Items(w, p);
    SecsAt(s);
    forall k | k in w.vals ensures exists x :: x in s && x.sec == k {
      var i :| 0 <= i < |w.keys| && w.keys[i] == k;
      assert s[i] in s && s[i].sec == k;
    }
  }

  /** The trading sequence before filtering: a permutation of the target keys, ordered
      non-decreasingly by target minus held weight, each with its own target and delta. */
  lemma SortedTargets(w: Weights, p: Portfolio)
    requires w.Valid() && CanWeigh(p)
    ensures multiset(Secs(SortByDelta(Items(w, p)))) == multiset(w.keys)
    ensures SortedByDelta(SortByDelta(Items(w, p)))
    ensures forall x :: x in SortByDelta(Items(w, p)) <==> x in Items(w, p)
  {
    SortPermutes(Items(w, p));
    SortPermutesSecs(Items(w, p));
    SortSorted(Items(w, p));
    ItemsFacts(w, p);
    var s := SortByDelta(Items(w, p));
    forall x ensures x in s <==> x in Items(w, p) {
      assert x in s <==> x in multiset(s);
    }
  }

  /** No security is the subject of two items. */
  predicate DistinctSecs(s: seq<Item>) {
    forall i, j :: 0 <= i < j < |s| ==> s[i].sec != s[j].sec
  }

  /** The items list every target once. */
  lemma ItemsDistinct(w: Weights, p: Portfolio)
    requires w.Valid() && CanWeigh(p)
    ensures DistinctSecs(Items(w, p))
  {
    var s := Items(w, p);
    assert forall i :: 0 <= i < |s| ==> s[i].sec == w.keys[i];
  }

  lemma {:induction false} InsertDistinct(x: Item, s: seq<Item>)
    requires DistinctSecs(s) && forall y :: y in s ==> y.sec != x.sec
    ensures DistinctSecs(Insert(x, s))
  {
    if s != [] && s[0].delta < x.delta {
      assert forall y :: y in s[1..] ==> y in s;
      InsertDistinct(x, s[1..]);
      InsertPermutes(x, s[1..]);
      var t := Insert(x, s[1..]);
      forall j | 0 <= j < |t| ensures t[j].sec != s[0].sec {
        assert t[j] in multiset(t);
        if t[j] != x {
          assert t[j] in multiset(s[1..]);
          var m :| 0 <= m < |s[1..]| && s[1..][m] == t[j];
          assert s[m + 1] == t[j];
        }
      }
      assert forall j :: 0 < j < |[s[0]] + t| ==> ([s[0]] + t)[j] == t[j - 1];
    }
  }

  /** The sort lists every security at most once if its input does. */
  lemma {:induction false} SortDistinct(s: seq<Item>)
    requires DistinctSecs(s)
    ensures DistinctSecs(SortByDelta(s))
  {
    if s != [] {
      SortDistinct(s[1..]);
      SortPermutes(s[1..]);
      var t := SortByDelta(s[1..]);
      forall y | y in t ensures y.sec != s[0].sec {
        assert y in multiset(s[1..]);
        var m :| 0 <= m < |s[1..]| && s[1..][m] == y;
        assert s[m + 1] == y;
      }
      InsertDistinct(s[0], t);
    }
  }

  /** Filtering lists every security at most once if its input does. */
  lemma {:induction false} FilterDistinct(s: seq<Item>, p: Item -> bool)
    requires DistinctSecs(s)
    ensures DistinctSecs(Filter(s, p))
  {
    if s != [] {
      FilterDistinct(s[1..], p);
      var rest := Filter(s[1..], p);
      forall j | 0 <= j < |rest| ensures rest[j].sec != s[0].sec {
        assert rest[j] in s[1..];
        var m :| 0 <= m < |s[1..]| && s[1..][m] == rest[j];
        assert s[m + 1] == rest[j];
      }
      assert forall j :: 0 < j < |[s[0]] + rest| ==> ([s[0]] + rest)[j] == rest[j - 1];
    }
  }

  /** `cond1 or cond2`: close an open position when the target is 0, or open one when the
      target is nonzero and nothing is held. */
  predicate ShouldOrder(weight: real, h: Holding) {
    var cond1 := weight == 0.0 && (IsLong(h) || IsShort(h));
    var cond2 := (weight > 0.0 || weight < 0.0) && !Invested(h);
    cond1 || cond2
  }

  /** The instrument has a quote and passes `cond1 or cond2`. */
  function Fires(p: Portfolio, quoted: set<Symbol>): Item -> bool {
    (x: Item) => x.sec in quoted && ShouldOrder(x.weight, HoldingOf(p, x.sec))
  }

  /** A `SetHoldings(sec, weight)` instruction. */
  datatype Order = Order(sec: Symbol, weight: real)

  function ToOrders(s: seq<Item>): seq<Order> {
    seq(|s|, i requires 0 <= i < |s| => Order(s[i].sec, s[i].weight))
  }

  /** The instructions the rebalancer issues, in order. */
  function Plan(w: Weights, p: Portfolio, quoted: set<Symbol>): seq<Order>
    requires w.Valid() && CanWeigh(p)
  {
    ToOrders(Filter(SortByDelta(Items(w, p)), Fires(p, quoted)))
  }

  /** Each instruction sets some target to its own target weight. */
  ghost predicate SetsTargets(o: seq<Order>, w: Weights) {
    forall i :: 0 <= i < |o| ==> o[i].sec in w.vals && o[i].weight == w.vals[o[i].sec]
  }

  /** A target gets an instruction exactly when it has a quote and passes `cond1 or cond2`. */
  ghost predicate IssuedExactly(o: seq<Order>, w: Weights, p: Portfolio, quoted: set<Symbol>) {
    forall k :: k in w.vals ==>
      ((exists i :: 0 <= i < |o| && o[i].sec == k) <==> k in quoted && ShouldOrder(w.vals[k], HoldingOf(p, k)))
  }

  /** No security gets two instructions. */
  ghost predicate OncePerSec(o: seq<Order>) {
    forall i, j :: 0 <= i < j < |o| ==> o[i].sec != o[j].sec
  }

  /** Instructions come in non-decreasing order of delta. */
  ghost predicate DeltaOrdered(o: seq<Order>, w: Weights, p: Portfolio)
    requires CanWeigh(p)
  {
    forall i, j :: 0 <= i < j < |o| && o[i].sec in w.vals && o[j].sec in w.vals ==>
      Delta(w, p, o[i].sec) <= Delta(w, p, o[j].sec)
  }

  /** Every planned instruction sets a target to its own weight. */
  lemma PlanSetsTargets(w: Weights, p: Portfolio, quoted: set<Symbol>)
    requires w.Valid() && CanWeigh(p)
    ensures SetsTargets(Plan(w, p, quoted), w)
  {
    var f := Filter(SortByDelta(Items(w, p)), Fires(p, quoted));
    var o := Plan(w, p, quoted);
    SortedTargets(w, p);
    ItemsFacts(w, p);
    forall i | 0 <= i < |o| ensures o[i].sec in w.vals && o[i].weight == w.vals[o[i].sec] {
      assert f[i] in f;
      assert Describes(f[i], w, p);
    }
  }

  /** A target gets a planned instruction exactly when it has a quote and passes `cond1 or cond2`. */
  lemma PlanIssuedExactly(w: Weights, p: Portfolio, quoted: set<Symbol>)
    requires w.Valid() && CanWeigh(p)
    ensures IssuedExactly(Plan(w, p, quoted), w, p, quoted)
  {
    var f := Filter(SortByDelta(Items(w, p)), Fires(p, quoted));
    var o := Plan(w, p, quoted);
    SortedTargets(w, p);
    ItemsFacts(w, p);
    forall k | k in w.vals
      ensures (exists i :: 0 <= i < |o| && o[i].sec == k) <==> k in quoted && ShouldOrder(w.vals[k], HoldingOf(p, k))
    {
      var x :| x in Items(w, p) && x.sec == k;
      assert Describes(x, w, p);
      if k in quoted && ShouldOrder(w.vals[k], HoldingOf(p, k)) {
        assert x in f;
        var i :| 0 <= i < |f| && f[i] == x;
        assert o[i].sec == k;
      }
      if exists i :: 0 <= i < |o| && o[i].sec == k {
        var i :| 0 <= i < |o| && o[i].sec == k;
        assert f[i] in f;
        assert Describes(f[i], w, p);
      }
    }
  }

  /** The plan gives every security at most one instruction. */
  lemma PlanOncePerSec(w: Weights, p: Portfolio, quoted: set<Symbol>)
    requires w.Valid() && CanWeigh(p)
    ensures OncePerSec(Plan(w, p, quoted))
  {
    ItemsDistinct(w, p);
    SortDistinct(Items(w, p));
    FilterDistinct(SortByDelta(Items(w, p)), Fires(p, quoted));
  }

  /** Planned instructions come in non-decreasing order of delta, so every
      weight-reducing trade precedes every weight-increasing one. */
  lemma PlanDeltaOrdered(w: Weights, p: Portfolio, quoted: set<Symbol>)
    requires w.Valid() && CanWeigh(p)
    ensures SetsTargets(Plan(w, p, quoted), w)
    ensures DeltaOrdered(Plan(w, p, quoted), w, p)
  {
    var s := SortByDelta(Items(w, p));
    var f := Filter(s, Fires(p, quoted));
    var o := Plan(w, p, quoted);
    PlanSetsTargets(w, p, quoted);
    SortedTargets(w, p);
    ItemsFacts(w, p);
    FilterSortedBy(s, Fires(p, quoted));
    forall i, j | 0 <= i < j < |o| ensures Delta(w, p, o[i].sec) <= Delta(w, p, o[j].sec) {
      assert f[i] in f && f[j] in f;
      assert Describes(f[i], w, p) && Describes(f[j], w, p);
    }
  }

  /** Filtering keeps the delta order. */
  lemma {:induction false} FilterSortedBy(s: seq<Item>, p: Item -> bool)
    requires SortedByDelta(s)
    ensures SortedByDelta(Filter(s, p))
  {
    if s != [] {
      FilterSortedBy(s[1..], p);
      var rest := Filter(s[1..], p);
      forall j | 0 <= j < |rest| ensures s[0].delta <= rest[j].delta {
        assert rest[j] in rest;
      }
    }
  }

  /** Once every quoted target is settled (held exactly when its target is nonzero),
      the rebalancer issues nothing, and only then: re-running it on an unchanged
      portfolio after its instructions have filled is a no-op. */
  lemma NoOrdersIffSettled(w: Weights, p: Portfolio, quoted: set<Symbol>)
    requires w.Valid() && CanWeigh(p)
    ensures Plan(w, p, quoted) == [] <==>
              forall k :: k in w.vals && k in quoted ==> (HoldingOf(p, k).quantity == 0.0 <==> w.vals[k] == 0.0)
  {
    PlanSetsTargets(w, p, quoted);
    PlanIssuedExactly(w, p, quoted);
    var o := Plan(w, p, quoted);
    if o != [] {
      var k := o[0].sec;
      assert k in w.vals;
    }
  }

  datatype TradeResult = Orders(orders: seq<Order>) | ZeroPortfolioValue

  /** `trade` as a value: the planned instructions, or the division-by-zero failure. */
  function TradeSpec(w: Weights, p: Portfolio, quoted: set<Symbol>): TradeResult
    requires w.Valid()
  {
    if CanWeigh(p) then Orders(Plan(w, p, quoted)) else ZeroPortfolioValue
  }

  /** What `trade` promises: unless it fails on a zero portfolio value, each instruction
      sets a target to its own weight, a target gets an instruction exactly when it has a
      quote and passes `cond1 or cond2`, no target gets two, and the instructions come in non-decreasing order
      of delta, so every weight-reducing trade precedes every weight-increasing one. */
  lemma TradeSpecFacts(w: Weights, p: Portfolio, quoted: set<Symbol>)
    requires w.Valid()
    ensures TradeSpec(w, p, quoted).ZeroPortfolioValue? <==> |p.holdings| > 0 && p.totalValue == 0.0
    ensures TradeSpec(w, p, quoted).Orders? ==>
              && SetsTargets(TradeSpec(w, p, quoted).orders, w)
              && IssuedExactly(TradeSpec(w, p, quoted).orders, w, p, quoted)
              && OncePerSec(TradeSpec(w, p, quoted).orders)
              && DeltaOrdered(TradeSpec(w, p, quoted).orders, w, p)
  {
    if CanWeigh(p) {
      PlanIssuedExactly(w, p, quoted);
      PlanOncePerSec(w, p, quoted);
      PlanDeltaOrdered(w, p, quoted);
    }
  }

  /** One step of the instruction loop: the next item adds its instruction exactly when it fires. */
  lemma IssueStep(sorted: seq<Item>, i: nat, fires: Item -> bool)
    requires i < |sorted|
    ensures ToOrders(Filter(sorted[..i + 1], fires))
            == ToOrders(Filter(sorted[..i], fires))
               + (if fires(sorted[i]) then [Order(sorted[i].sec, sorted[i].weight)] else [])
  {
    FilterPrefixStep(sorted, i, fires);
  }

  /** The loop of `trade`: walk the targets in delta order, skip those without a quote,
      and emit an instruction for each that passes `cond1 or cond2`. */
  method Issue(sorted: seq<Item>, p: Portfolio, quoted: set<Symbol>) returns (orders: seq<Order>)
    ensures orders == ToOrders(Filter(sorted, Fires(p, quoted)))
  {
    var fires := Fires(p, quoted);
    orders := [];
    var i := 0;
    while i < |sorted|
      invariant 0 <= i <= |sorted|
      invariant orders == ToOrders(Filter(sorted[..i], fires))
    {
      var x := sorted[i];
      var issue := false;
      if x.sec in quoted {
        var h := HoldingOf(p, x.sec);
        var cond1 := x.weight == 0.0 && (IsLong(h) || IsShort(h));
        var cond2 := (x.weight > 0.0 || x.weight < 0.0) && !Invested(h);
        issue := cond1 || cond2;
      }
      assert issue == fires(x);
      IssueStep(sorted, i, fires);
      if issue {
        orders := orders + [Order(x.sec, x.weight)];
      }
      i := i + 1;
    }
    assert sorted[..i] == sorted;
  }

  /** `trade`: held weights, deltas, the stable sort, then the instruction loop. Fails
      (`main.py`'s division by zero) when the portfolio lists any security and the total value is 0. */
  method Trade(w: Weights, p: Portfolio, quoted: set<Symbol>) returns (r: TradeResult)
    requires w.Valid()
    ensures r == TradeSpec(w, p, quoted)
    ensures r.ZeroPortfolioValue? <==> |p.holdings| > 0 && p.totalValue == 0.0
  {
    if !CanWeigh(p) {
      return ZeroPortfolioValue;
    }
    var sorted := SortByDelta(Items(w, p));
    var orders := Issue(sorted, p, quoted);
    r := Orders(orders);
  }
}
