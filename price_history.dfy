/** The rolling daily closing-price table: rows keyed by timestamp, one cell per
    instrument; a cell absent from a row is a missing (NaN) price. */
module PriceHistory {
  import opened Seqs
  import opened Instruments

  /** `lookback = 252 * 5`: the table keeps this many most recent rows. */
  const Lookback: nat := 1260

  datatype Row = Row(time: int, close: map<Symbol, real>)

  /** The table's index has no repeated timestamp. */
  predicate UniqueTimes(h: seq<Row>) {
    forall i, j :: 0 <= i < j < |h| ==> h[i].time != h[j].time
  }

  /** Every recorded closing price is positive. */
  predicate PricesPositive(h: seq<Row>) {
    forall i, k :: 0 <= i < |h| && k in h[i].close ==> h[i].close[k] > 0.0
  }

  /** Every recorded cell belongs to one of the table's columns. */
  predicate InColumns(h: seq<Row>, columns: set<Symbol>) {
    forall i, k :: 0 <= i < |h| && k in h[i].close ==> k in columns
  }

  ghost predicate WellFormed(h: seq<Row>, columns: set<Symbol>) {
    UniqueTimes(h) && PricesPositive(h) && InColumns(h, columns) && |h| <= Lookback
  }

  /** `DataFrame.empty`: no rows or no columns. */
  predicate IsEmpty(h: seq<Row>, columns: set<Symbol>) {
    |h| == 0 || columns == {}
  }

  /** Position of the row stamped `t`, or `|h|` when there is none. */
  function RowOf(h: seq<Row>, t: int): (i: nat)
    ensures i <= |h|
    ensures i < |h| ==> h[i].time == t
    ensures forall j :: 0 <= j < i ==> h[j].time != t
  {
    if h == [] then 0
    else if h[0].time == t then 0
    else
      var i := RowOf(h[1..], t);
      assert forall j :: 1 <= j < |h| ==> h[j] == h[1..][j - 1];
      1 + i
  }

  /** `history.loc[t, sym] = c`: overwrite the cell in the row stamped `t` if there is
      one, otherwise append a new row stamped `t` holding only that cell. The table
      grows by one row exactly when no row is stamped `t`. */
  function SetCell(h: seq<Row>, t: int, sym: Symbol, c: real): (s: seq<Row>)
    ensures |h| <= |s| <= |h| + 1
    ensures |s| == |h| + 1 <==> RowOf(h, t) == |h|
  {
    var i := RowOf(h, t);
    if i < |h| then h[i := h[i].(close := h[i].close[sym := c])]
    else h + [Row(t, map[sym := c])]
  }

  /** The table after one daily bar arrives: insert or overwrite, then truncate. It
      never holds more than 1260 rows, and a table within that bound never shrinks. */
  function AddBar(h: seq<Row>, t: int, sym: Symbol, c: real): (r: seq<Row>)
    requires UniqueTimes(h)
    ensures |r| <= Lookback
    ensures |h| <= Lookback ==> |h| <= |r|
  {
    Newest(SetCell(h, t, sym, c), Lookback)
  }

  /** The row stamped `t` holds `c` for `sym`. */
  ghost predicate Stored(h: seq<Row>, t: int, sym: Symbol, c: real) {
    exists i :: 0 <= i < |h| && h[i].time == t && sym in h[i].close && h[i].close[sym] == c
  }

  /** Every cell of `r`, other than the one at (`t`, `sym`), is the cell of `h` with the same timestamp and column. */
  ghost predicate OthersFrom(r: seq<Row>, h: seq<Row>, t: int, sym: Symbol) {
    forall i, k :: 0 <= i < |r| && k in r[i].close && (r[i].time != t || k != sym) ==>
      exists j :: 0 <= j < |h| && h[j].time == r[i].time && k in h[j].close && h[j].close[k] == r[i].close[k]
  }

  /** Every row of `h` is still at its place in `s` with its timestamp, and every cell
      of it other than the one at (`t`, `sym`) still holds its price. */
  ghost predicate Keeps(s: seq<Row>, h: seq<Row>, t: int, sym: Symbol) {
    && |h| <= |s|
    && (forall i :: 0 <= i < |h| ==> s[i].time == h[i].time)
    && (forall i, k :: 0 <= i < |h| && k in h[i].close && (h[i].time != t || k != sym) ==>
          k in s[i].close && s[i].close[k] == h[i].close[k])
  }

  /** Writing one cell keeps every other cell and row where it was. */
  lemma SetCellKeeps(h: seq<Row>, t: int, sym: Symbol, c: real)
    ensures Keeps(SetCell(h, t, sym, c), h, t, sym)
  {
    var i := RowOf(h, t);
    var s := SetCell(h, t, sym, c);
    if i == |h| {
      assert forall j :: 0 <= j < |h| ==> s[j] == h[j];
    }
  }

  /** Writing one cell keeps the table well formed, stores the written price at `t`,
      and adds no cell other than the written one. */
  lemma SetCellFacts(h: seq<Row>, columns: set<Symbol>, t: int, sym: Symbol, c: real)
    requires WellFormed(h, columns) && c > 0.0
    ensures var s := SetCell(h, t, sym, c);
            && UniqueTimes(s) && PricesPositive(s) && InColumns(s, columns + {sym})
            && Stored(s, t, sym, c) && OthersFrom(s, h, t, sym)
            && (|s| == |h| || s[|s| - 1].time == t)
  {
    var s := SetCell(h, t, sym, c);
    if exists i :: 0 <= i < |h| && h[i].time == t {
      var i :| 0 <= i < |h| && h[i].time == t;
      assert s[i].time == t && s[i].close[sym] == c;
      forall a, k | 0 <= a < |s| && k in s[a].close && (s[a].time != t || k != sym)
        ensures exists j :: 0 <= j < |h| && h[j].time == s[a].time && k in h[j].close && h[j].close[k] == s[a].close[k]
      {
        assert h[a].time == s[a].time && k in h[a].close && h[a].close[k] == s[a].close[k];
      }
    } else {
      assert s[|s| - 1] == Row(t, map[sym := c]);
      forall a, k | 0 <= a < |s| && k in s[a].close && (s[a].time != t || k != sym)
        ensures exists j :: 0 <= j < |h| && h[j].time == s[a].time && k in h[j].close && h[j].close[k] == s[a].close[k]
      {
        assert a < |h| && s[a] == h[a];
      }
    }
  }

  /** Any suffix of a well-formed table stays well formed, and its cells come from the table. */
  lemma SuffixFacts(s: seq<Row>, columns: set<Symbol>, n: nat)
    requires UniqueTimes(s) && PricesPositive(s) && InColumns(s, columns)
    ensures var r := Newest(s, n);
            UniqueTimes(r) && PricesPositive(r) && InColumns(r, columns)
  {
    var r := Newest(s, n);
    var off := |s| - |r|;
    assert forall i :: 0 <= i < |r| ==> r[i] == s[off + i];
  }

  /** `r` is well formed with `sym` among its columns, stores `c` at (`t`, `sym`), and
      every other cell of it is a cell of `h`. */
  ghost predicate BarAdded(r: seq<Row>, h: seq<Row>, columns: set<Symbol>, t: int, sym: Symbol, c: real) {
    WellFormed(r, columns + {sym}) && Stored(r, t, sym, c) && OthersFrom(r, h, t, sym)
  }

  /** A new bar keeps the table well formed (with its symbol among the columns), the
      just-written price is the one stored at `t`, and every other cell of every
      kept row is one the table already held. */
  lemma AddBarFacts(h: seq<Row>, columns: set<Symbol>, t: int, sym: Symbol, c: real)
    requires WellFormed(h, columns) && c > 0.0
    ensures BarAdded(AddBar(h, t, sym, c), h, columns, t, sym, c)
  {
    var s := SetCell(h, t, sym, c);
    var r := AddBar(h, t, sym, c);
    SetCellFacts(h, columns, t, sym, c);
    SuffixFacts(s, columns + {sym}, Lookback);
    if |s| <= Lookback {
      assert r == s;
    } else {
      // The table was full and grew by one row: the oldest row drops out.
      assert r == s[1..];
      assert r[|r| - 1] == s[|s| - 1];
      forall a, k | 0 <= a < |r| && k in r[a].close && (r[a].time != t || k != sym)
        ensures exists j :: 0 <= j < |h| && h[j].time == r[a].time && k in h[j].close && h[j].close[k] == r[a].close[k]
      {
        assert r[a] == s[a + 1];
      }
    }
  }

  /** A new bar drops at most the oldest row, and only when the table was full and `t`
      is a new timestamp; every other cell of every surviving old row is still stored
      at its timestamp. */
  lemma AddBarKeeps(h: seq<Row>, t: int, sym: Symbol, c: real)
    requires UniqueTimes(h) && |h| <= Lookback
    ensures var r := AddBar(h, t, sym, c);
            var dropped := |SetCell(h, t, sym, c)| - |r|;
            && 0 <= dropped <= 1
            && (dropped == 1 ==> |h| == Lookback && forall j :: 0 <= j < |h| ==> h[j].time != t)
            && (forall i, k :: dropped <= i < |h| && k in h[i].close && (h[i].time != t || k != sym) ==>
                  Stored(r, h[i].time, k, h[i].close[k]))
  {
    var s := SetCell(h, t, sym, c);
    var r := AddBar(h, t, sym, c);
    SetCellKeeps(h, t, sym, c);
    if |s| <= Lookback {
      assert r == s;
      forall i, k | 0 <= i < |h| && k in h[i].close && (h[i].time != t || k != sym)
        ensures Stored(r, h[i].time, k, h[i].close[k])
      {
        assert r[i].time == h[i].time && k in r[i].close && r[i].close[k] == h[i].close[k];
      }
    } else {
      assert r == s[1..];
      forall i, k | 1 <= i < |h| && k in h[i].close && (h[i].time != t || k != sym)
        ensures Stored(r, h[i].time, k, h[i].close[k])
      {
        assert r[i - 1] == s[i];
        assert r[i - 1].time == h[i].time && k in r[i - 1].close && r[i - 1].close[k] == h[i].close[k];
      }
    }
  }
}
