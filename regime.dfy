/** The IN/OUT hysteresis machine: two independent conditions on the newest
    smoothed density, each appending to the append-only regime list. */
module Regime {
  import opened Instruments

  /** `shift_vars[2]`: the trailing window reaches back this many entries. */
  const TrailLen: nat := 45

  /** The smallest element of a non-empty sequence (Python's `min`). */
  function MinOf(s: seq<real>): (m: real)
    requires |s| > 0
    ensures forall i :: 0 <= i < |s| ==> m <= s[i]
    ensures exists i :: 0 <= i < |s| && m == s[i]
  {
    if |s| == 1 then s[0]
    else
      var t := MinOf(s[1..]);
      assert forall i :: 1 <= i < |s| ==> s[i] == s[1..][i - 1];
      if s[0] <= t then s[0] else t
  }

  /** Where Python's slice `d[-45:-2]` starts (a negative start past the front clamps to 0). */
  function TrailStart(n: nat): nat {
    if n > TrailLen then n - TrailLen else 0
  }

  /** `list(d)[-45:-2]`: up to 43 entries before the last two. */
  function Trailing(d: seq<real>): (t: seq<real>)
    requires |d| >= 3
    ensures 0 < |t| <= TrailLen - 2
  {
    d[TrailStart(|d|)..|d| - 2]
  }

  /** OUT condition: stress rose day over day. */
  predicate OutFires(d: seq<real>)
    requires |d| >= 2
  {
    d[|d| - 1] > d[|d| - 2]
  }

  /** IN condition: stress undercuts the trailing minimum. */
  predicate InFires(d: seq<real>)
    requires |d| >= 3
  {
    d[|d| - 1] < MinOf(Trailing(d))
  }

  /** What one check appends to `be_in`: 0 if OUT fires, then 1 if IN fires. `be_in`
      grows by zero, one or two entries; 0 is appended iff OUT fires, 1 iff IN fires,
      and when both fire the 1 comes last. */
  function RegimeStep(d: seq<real>): (step: seq<Bit>)
    requires |d| >= 3
    ensures |step| == (if OutFires(d) then 1 else 0) + (if InFires(d) then 1 else 0)
    ensures 0 in step <==> OutFires(d)
    ensures 1 in step <==> InFires(d)
    ensures OutFires(d) && InFires(d) ==> step == [0, 1]
    ensures !OutFires(d) && !InFires(d) ==> step == []
  {
    (if OutFires(d) then [0] else []) + (if InFires(d) then [1] else [])
  }

  /** The IN condition holds exactly when the newest density is below every
      entry of the trailing window `[-45:-2]`. */
  lemma InFiresIff(d: seq<real>)
    requires |d| >= 3
    ensures InFires(d) <==> forall i :: TrailStart(|d|) <= i < |d| - 2 ==> d[|d| - 1] < d[i]
  {
    var t := Trailing(d);
    assert forall i :: TrailStart(|d|) <= i < |d| - 2 ==> d[i] == t[i - TrailStart(|d|)];
  }

  /** The regime read downstream, `be_in[-1]`, after one check: IN if the IN condition
      fired (whether or not OUT fired too), else OUT if the OUT condition fired,
      else the previous regime. The list never becomes empty. */
  lemma {:induction false} NewestRegime(beIn: seq<Bit>, d: seq<real>)
    requires |beIn| > 0 && |d| >= 3
    ensures |beIn + RegimeStep(d)| > 0
    ensures (beIn + RegimeStep(d))[|beIn + RegimeStep(d)| - 1]
            == if InFires(d) then 1 else if OutFires(d) then 0 else beIn[|beIn| - 1]
  {
    var step := RegimeStep(d);
    var b := beIn + step;
    if step == [] {
      assert b == beIn;
    } else {
      assert b[|b| - 1] == step[|step| - 1];
    }
  }

  /** Worked case: 43 entries of 0.1, then 0.05 and 0.2. Stress rose, so OUT fires;
      0.2 is not below the trailing minimum 0.1, so IN does not. */
  lemma HysteresisExample()
    ensures var d := seq(43, _ => 0.1) + [0.05, 0.2];
            OutFires(d) && !InFires(d) && RegimeStep(d) == [0]
  {
    var d := seq(43, _ => 0.1) + [0.05, 0.2];
    InFiresIff(d);
    assert d[0] == 0.1;
  }
}
