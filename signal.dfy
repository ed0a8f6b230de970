/** The stress density: which of the eight stress columns are extreme today,
    the debt false-positive filter, the fraction of extreme columns, its
    exponential smoothing, and the bounded deque that stores the smoothed series. */
module Signal {
  import opened Seqs

  /** `maxlen` of the density deque. */
  const DensCapacity: nat := 100

  /** `ema_f = 2/(1+50)`, the smoothing factor. */
  const EmaF: real := 2.0 / 51.0

  /** The deque's five zero seeds. */
  const Seeds: seq<real> := [0.0, 0.0, 0.0, 0.0, 0.0]

  /** One boolean per column that enters the density, in the order
      SIGNALS + pairlist: industrials, base metals, natural resources, dollar,
      short-term debt, market, gold-silver pair, utilities-industrials pair.
      The percentile and median comparisons that produce these are inputs here. */
  datatype Flags = Flags(prdc: bool, metl: bool, nres: bool, usdx: bool,
                         debt: bool, mrkt: bool, gs: bool, ui: bool)

  /** The flags of one daily check: "below the 5th percentile" and "above the median", per column. */
  datatype DayFlags = DayFlags(extreme: Flags, aboveMedian: Flags)

  /** False-positive filter: an extreme debt reading is cleared when base metals or
      natural resources are above their median (rising input costs read as strength). */
  function DebtFilter(extreme: Flags, aboveMedian: Flags): (r: Flags)
    ensures !r.debt <==> !extreme.debt || aboveMedian.metl || aboveMedian.nres
    ensures r.(debt := extreme.debt) == extreme
  {
    if extreme.debt && (aboveMedian.metl || aboveMedian.nres) then extreme.(debt := false) else extreme
  }

  /** The eight flags as a list, in column order. */
  function Listed(f: Flags): seq<bool> {
    [f.prdc, f.metl, f.nres, f.usdx, f.debt, f.mrkt, f.gs, f.ui]
  }

  /** How many entries of `s` are true (`Series.sum` over booleans). */
  function CountTrue(s: seq<bool>): (n: nat)
    ensures n <= |s|
    ensures n == 0 <==> forall i :: 0 <= i < |s| ==> !s[i]
    ensures n == |s| <==> forall i :: 0 <= i < |s| ==> s[i]
  {
    if s == [] then 0
    else
      var rest := CountTrue(s[1..]);
      assert forall i :: 1 <= i < |s| ==> s[i] == s[1..][i - 1];
      (if s[0] then 1 else 0) + rest
  }

  /** The unsmoothed density: the fraction of the eight columns flagged extreme. */
  function CurrentDensity(f: Flags): (d: real)
    ensures 0.0 <= d <= 1.0
    ensures d == 0.0 <==> forall i :: 0 <= i < 8 ==> !Listed(f)[i]
    ensures d == 1.0 <==> forall i :: 0 <= i < 8 ==> Listed(f)[i]
  {
    CountTrue(Listed(f)) as real / 8.0
  }

  /** The count is the number of occurrences of `true`. */
  lemma {:induction false} CountTrueIsMultiplicity(s: seq<bool>)
    ensures CountTrue(s) == multiset(s)[true]
  {
    if s != [] {
      CountTrueIsMultiplicity(s[1..]);
      assert s == [s[0]] + s[1..];
    }
  }

  /** The density is the number of extreme columns divided by eight. */
  lemma CurrentDensityValue(f: Flags)
    ensures CurrentDensity(f) == multiset(Listed(f))[true] as real / 8.0
  {
    CountTrueIsMultiplicity(Listed(f));
  }

  /** One exponential-smoothing step: `(1 - ema_f) * prev + ema_f * cur`. */
  function Ema(prev: real, cur: real): (r: real)
    ensures prev <= cur ==> prev <= r <= cur
    ensures cur <= prev ==> cur <= r <= prev
    ensures r == prev <==> cur == prev
  {
    (1.0 - EmaF) * prev + EmaF * cur
  }

  /** `deque.append` on a deque with `maxlen = cap`: `x` becomes the newest entry,
      and once the deque is full its oldest entry drops out. */
  function BoundedAppend<T>(s: seq<T>, x: T, cap: nat): (r: seq<T>)
    requires 0 < cap && |s| <= cap
    ensures |r| == if |s| < cap then |s| + 1 else cap
    ensures r[|r| - 1] == x
    ensures forall i :: 0 <= i < |r| - 1 ==> r[i] == s[|s| - (|r| - 1) + i]
  {
    var t := s + [x];
    if |t| > cap then t[|t| - cap..] else t
  }

  /** Every entry lies in [0, 1]. */
  ghost predicate InUnit(s: seq<real>) {
    forall i :: 0 <= i < |s| ==> 0.0 <= s[i] <= 1.0
  }

  /** Steps 4-5 of the daily check: filter, count, smooth against the newest stored
      density, and append to the deque. */
  function NextDensities(s: seq<real>, day: DayFlags): (r: seq<real>)
    requires 0 < |s| <= DensCapacity
  {
    BoundedAppend(s, Ema(s[|s| - 1], CurrentDensity(DebtFilter(day.extreme, day.aboveMedian))), DensCapacity)
  }

  /** Appending a smoothed density in [0, 1] keeps the deque within capacity, never
      shrinks it, and keeps every density in [0, 1]. */
  lemma AppendInRange(s: seq<real>, cur: real)
    requires 0 < |s| <= DensCapacity && InUnit(s) && 0.0 <= cur <= 1.0
    ensures var r := BoundedAppend(s, Ema(s[|s| - 1], cur), DensCapacity);
            |s| <= |r| <= DensCapacity && InUnit(r)
  {
    var r := BoundedAppend(s, Ema(s[|s| - 1], cur), DensCapacity);
    assert 0.0 <= r[|r| - 1] <= 1.0 by {
      assert r[|r| - 1] == Ema(s[|s| - 1], cur);
    }
    forall i | 0 <= i < |r| - 1 ensures 0.0 <= r[i] <= 1.0 {
      assert r[i] == s[|s| - (|r| - 1) + i];
    }
  }

  /** One daily step keeps the deque within capacity, never shrinks it, and keeps every density in [0, 1]. */
  lemma NextDensitiesInRange(s: seq<real>, day: DayFlags)
    requires 0 < |s| <= DensCapacity && InUnit(s)
    ensures |s| <= |NextDensities(s, day)| <= DensCapacity
    ensures InUnit(NextDensities(s, day))
  {
    AppendInRange(s, CurrentDensity(DebtFilter(day.extreme, day.aboveMedian)));
  }

  /** The deque after a run of daily checks, starting from `s`. */
  function Replay(s: seq<real>, days: seq<DayFlags>): (r: seq<real>)
    requires 0 < |s| <= DensCapacity
    ensures |s| <= |r| <= DensCapacity
    decreases |days|
  {
    if days == [] then s
    else
      var s' := NextDensities(s, days[0]);
      Replay(s', days[1..])
  }

  /** From the five zero seeds, any run of daily checks leaves between 5 and 100
      densities, all in [0, 1]; the deque fills one entry per day until it is full. */
  lemma {:induction false} ReplayFromSeeds(days: seq<DayFlags>)
    ensures 5 <= |Replay(Seeds, days)| <= DensCapacity
    ensures |Replay(Seeds, days)| == if 5 + |days| < DensCapacity then 5 + |days| else DensCapacity
    ensures InUnit(Replay(Seeds, days))
  {
    ReplayInRange(Seeds, days);
  }

  lemma {:induction false} ReplayInRange(s: seq<real>, days: seq<DayFlags>)
    requires 0 < |s| <= DensCapacity && InUnit(s)
    ensures |Replay(s, days)| == if |s| + |days| < DensCapacity then |s| + |days| else DensCapacity
    ensures InUnit(Replay(s, days))
    decreases |days|
  {
    if days != [] {
      NextDensitiesInRange(s, days[0]);
      ReplayInRange(NextDensities(s, days[0]), days[1..]);
    }
  }
}
