/** Running peak and maximum drawdown of an equity path, the rule shared by runBacktest
    (src/lib/trading.ts:130-132) and each Monte Carlo run (src/lib/trading.ts:159-161):
    after each new value the peak becomes the larger of the two, and the drawdown
    `(peak - value) / peak` replaces the maximum when it is larger. */
module Drawdown {

  /** The largest value of a non-empty path. */
  function Peak(vs: seq<real>): real
    requires |vs| > 0
  {
    if |vs| == 1 then vs[0]
    else
      var p := Peak(vs[..|vs| - 1]);
      if vs[|vs| - 1] > p then vs[|vs| - 1] else p
  }

  /** The maximum drawdown of a path whose first value (the seed) is positive. */
  function MaxDrawdown(vs: seq<real>): real
    requires |vs| > 0 && vs[0] > 0.0
  {
    if |vs| == 1 then 0.0
    else
      PeakPositive(vs);
      StepDrawdown(MaxDrawdown(vs[..|vs| - 1]), Peak(vs), vs[|vs| - 1])
  }

  /** One step of the incremental rule, as the source writes it. */
  function StepPeak(peak: real, value: real): (r: real)
    ensures r >= peak && r >= value && (r == peak || r == value)
  {
    if value > peak then value else peak
  }

  function StepDrawdown(maxDrawdown: real, peak: real, value: real): (r: real)
    requires peak != 0.0
    ensures r >= maxDrawdown && r >= (peak - value) / peak
    ensures r == maxDrawdown || r == (peak - value) / peak
  {
    var d := (peak - value) / peak;
    if d > maxDrawdown then d else maxDrawdown
  }

  lemma {:induction false} PeakIsGreatest(vs: seq<real>)
    requires |vs| > 0
    ensures Peak(vs) in vs
    ensures forall k :: 0 <= k < |vs| ==> vs[k] <= Peak(vs)
  {
    if |vs| > 1 {
      PeakIsGreatest(vs[..|vs| - 1]);
      assert forall k :: 0 <= k < |vs| - 1 ==> vs[..|vs| - 1][k] == vs[k];
    }
  }

  lemma PeakPositive(vs: seq<real>)
    requires |vs| > 0 && vs[0] > 0.0
    ensures Peak(vs) >= vs[0] > 0.0
  {
    PeakIsGreatest(vs);
  }

  /** Extending the path by one value is exactly one step of the incremental rule. */
  lemma PeakAppend(vs: seq<real>, v: real)
    requires |vs| > 0
    ensures Peak(vs + [v]) == StepPeak(Peak(vs), v)
  {
    assert (vs + [v])[..|vs|] == vs;
  }

  lemma DrawdownAppend(vs: seq<real>, v: real)
    requires |vs| > 0 && vs[0] > 0.0
    ensures (vs + [v])[0] == vs[0]
    ensures Peak(vs + [v]) > 0.0
    ensures MaxDrawdown(vs + [v]) == StepDrawdown(MaxDrawdown(vs), Peak(vs + [v]), v)
  {
    var w := vs + [v];
    assert w[..|w| - 1] == vs;
    assert w[|w| - 1] == v;
    PeakPositive(w);
  }

  /** The drawdown at step `k`: how far the value at `k` sits below the peak of the path up to `k`. */
  function DrawdownAt(vs: seq<real>, k: nat): real
    requires |vs| > 0 && vs[0] > 0.0 && k < |vs|
  {
    PeakPositive(vs[..k + 1]);
    (Peak(vs[..k + 1]) - vs[k]) / Peak(vs[..k + 1])
  }

  /** The maximum drawdown is never negative, bounds every step's drawdown and only grows. */
  lemma {:induction false} MaxDrawdownBounds(vs: seq<real>)
    requires |vs| > 0 && vs[0] > 0.0
    ensures MaxDrawdown(vs) >= 0.0
    ensures forall k :: 1 <= k <= |vs| ==> vs[..k][0] == vs[0] && MaxDrawdown(vs[..k]) <= MaxDrawdown(vs)
    ensures forall k :: 0 <= k < |vs| ==> DrawdownAt(vs, k) <= MaxDrawdown(vs)
  {
    if |vs| == 1 {
      assert vs[..1] == vs;
    } else {
      var init := vs[..|vs| - 1];
      MaxDrawdownBounds(init);
      assert MaxDrawdown(init) <= MaxDrawdown(vs);
      forall k | 1 <= k <= |vs| ensures vs[..k][0] == vs[0] && MaxDrawdown(vs[..k]) <= MaxDrawdown(vs) {
        if k < |vs| {
          assert vs[..k] == init[..k];
        } else {
          assert vs[..k] == vs;
        }
      }
      forall k | 0 <= k < |vs| ensures DrawdownAt(vs, k) <= MaxDrawdown(vs) {
        if k < |vs| - 1 {
          assert vs[..k + 1] == init[..k + 1];
          assert DrawdownAt(vs, k) == DrawdownAt(init, k);
        } else {
          assert vs[..k + 1] == vs;
        }
      }
    }
  }

  /** ... and it is the drawdown of some step: the maximum over the steps, with step 0 giving 0. */
  lemma {:induction false} MaxDrawdownAttained(vs: seq<real>)
    requires |vs| > 0 && vs[0] > 0.0
    ensures exists k :: 0 <= k < |vs| && MaxDrawdown(vs) == DrawdownAt(vs, k)
  {
    if |vs| == 1 {
      assert vs[..1] == vs;
      assert MaxDrawdown(vs) == DrawdownAt(vs, 0);
    } else {
      var init := vs[..|vs| - 1];
      var n := |vs| - 1;
      MaxDrawdownAttained(init);
      var j :| 0 <= j < |init| && MaxDrawdown(init) == DrawdownAt(init, j);
      assert vs[..n + 1] == vs;
      if MaxDrawdown(vs) == MaxDrawdown(init) {
        assert vs[..j + 1] == init[..j + 1];
        assert MaxDrawdown(vs) == DrawdownAt(vs, j);
      } else {
        assert MaxDrawdown(vs) == DrawdownAt(vs, n);
      }
    }
  }

  lemma QuotientAtMostOne(p: real, v: real)
    requires p > 0.0 && v >= 0.0
    ensures (p - v) / p <= 1.0
  {
    var q := (p - v) / p;
    assert q * p == p - v;
  }

  /** When the path never goes below zero, no drawdown exceeds 1 (a total loss). */
  lemma {:induction false} MaxDrawdownAtMostOne(vs: seq<real>)
    requires |vs| > 0 && vs[0] > 0.0
    requires forall k :: 0 <= k < |vs| ==> vs[k] >= 0.0
    ensures MaxDrawdown(vs) <= 1.0
  {
    if |vs| > 1 {
      var init := vs[..|vs| - 1];
      MaxDrawdownAtMostOne(init);
      PeakPositive(vs);
      var p := Peak(vs);
      QuotientAtMostOne(p, vs[|vs| - 1]);
    }
  }
}
