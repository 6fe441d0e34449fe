/** runMonteCarlo (src/lib/trading.ts:146-178): bootstrap resampling of a trade ledger.
    `Math.random` is replaced by an oracle `draws`: `draws[i][j]` is the ledger index that
    `Math.floor(Math.random() * trades.length)` picked for the j-th trade of run i. */
module MonteCarlo {
  import opened TradingTypes
  import opened Sorting
  import Drawdown

  datatype Interval = Interval(lower: real, upper: real)

  /** The source also returns `stdDev`, the square root of `variance`; `Math.sqrt` is not
      modelled, so the model returns the variance it is taken of. */
  datatype MonteCarloResult = MonteCarloResult(meanPnl: real, variance: real, pnlDistribution: seq<real>,
                                               worstDrawdown: real, confidenceInterval: Interval)

  /** What `Math.floor(Math.random() * n)` can return: one index below `n` per drawn trade. */
  ghost predicate ValidDraws(draws: seq<seq<nat>>, iterations: nat, n: nat)
  {
    |draws| == iterations && forall i :: 0 <= i < |draws| ==> |draws[i]| == n && forall j :: 0 <= j < n ==> draws[i][j] < n
  }

  /** `Array.from({length: n}, ...)`: the drawn trades of one run. */
  function Resample(trades: seq<Trade>, picks: seq<nat>): (r: seq<Trade>)
    requires forall j :: 0 <= j < |picks| ==> picks[j] < |trades|
    ensures |r| == |picks| && forall j :: 0 <= j < |picks| ==> r[j] == trades[picks[j]]
  {
    seq(|picks|, j requires 0 <= j < |picks| => trades[picks[j]])
  }

  /** The product of `1 + pnlPercent` over the drawn trades. */
  function Growth(ts: seq<Trade>): real
  {
    if |ts| == 0 then 1.0 else Growth(ts[..|ts| - 1]) * (1.0 + ts[|ts| - 1].pnlPercent)
  }

  /** A run's pnl is where its equity path ends, less where it starts. */
  lemma RunPnlFromPath(ts: seq<Trade>)
    ensures RunPnl(ts) == EquityPath(ts)[|ts|] - EquityPath(ts)[0]
  {
    PathEnds(ts);
  }

  /** The equity of one run before and after each drawn trade: it starts at 10000 and ends at
      10000 times the product of its trades' growth factors. */
  function EquityPath(ts: seq<Trade>): (p: seq<real>)
    ensures |p| == |ts| + 1
  {
    seq(|ts| + 1, k requires 0 <= k <= |ts| => InitialEquity * Growth(ts[..k]))
  }

  /** A run starts at 10000 and ends at 10000 times the product of its trades' growth factors. */
  lemma PathEnds(ts: seq<Trade>)
    ensures EquityPath(ts)[0] == InitialEquity
    ensures EquityPath(ts)[|ts|] == InitialEquity * Growth(ts)
  {
    assert ts[..0] == [];
    assert ts[..|ts|] == ts;
  }

  /** The final pnl of a run, as the source pushes it. */
  function RunPnl(ts: seq<Trade>): real
  {
    InitialEquity * Growth(ts) - InitialEquity
  }

  function RunDrawdown(ts: seq<Trade>): real
  {
    Drawdown.MaxDrawdown(EquityPath(ts))
  }

  /** The larger of 0 and the values `xs`: the source keeps the running maximum of a variable
      started at 0, replacing it only by a strictly larger value. */
  function MaxFromZero(xs: seq<real>): real
  {
    if |xs| == 0 then 0.0
    else
      var m := MaxFromZero(xs[..|xs| - 1]);
      if xs[|xs| - 1] > m then xs[|xs| - 1] else m
  }

  function Sum(xs: seq<real>): real
  {
    if |xs| == 0 then 0.0 else Sum(xs[..|xs| - 1]) + xs[|xs| - 1]
  }

  function SquaredDeviations(xs: seq<real>, mean: real): real
  {
    if |xs| == 0 then 0.0
    else SquaredDeviations(xs[..|xs| - 1], mean) + (xs[|xs| - 1] - mean) * (xs[|xs| - 1] - mean)
  }

  /** `Math.floor(iterations * 0.025)` and `Math.floor(iterations * 0.975)`, in exact arithmetic. */
  function LowerIndex(n: nat): int { (n as real * 0.025).Floor }
  function UpperIndex(n: nat): int { (n as real * 0.975).Floor }

  /** Both percentile indices lie inside a non-empty distribution, the lower one first. */
  lemma PercentileIndices(n: nat)
    requires n >= 1
    ensures 0 <= LowerIndex(n) <= UpperIndex(n) < n
  {
    assert n as real * 0.025 <= n as real * 0.975;
    assert n as real * 0.975 < n as real;
  }

  /** The running maximum started at 0 is at least 0 and every value, and is 0 or one of them. */
  lemma {:induction false} MaxFromZeroBounds(xs: seq<real>)
    ensures MaxFromZero(xs) >= 0.0
    ensures forall k :: 0 <= k < |xs| ==> xs[k] <= MaxFromZero(xs)
    ensures MaxFromZero(xs) == 0.0 || MaxFromZero(xs) in xs
  {
    if |xs| > 0 {
      var init := xs[..|xs| - 1];
      MaxFromZeroBounds(init);
      assert forall k :: 0 <= k < |init| ==> xs[k] == init[k];
      assert MaxFromZero(init) in init ==> MaxFromZero(init) in xs;
    }
  }

  /** With no trade losing more than everything, every prefix of a run ends at a
      non-negative equity. */
  lemma {:induction false} GrowthNonNegative(ts: seq<Trade>)
    requires forall k :: 0 <= k < |ts| ==> ts[k].pnlPercent >= -1.0
    ensures Growth(ts) >= 0.0
  {
    if |ts| > 0 {
      GrowthNonNegative(ts[..|ts| - 1]);
      assert 1.0 + ts[|ts| - 1].pnlPercent >= 0.0;
    }
  }

  /** The drawdown of a run is at least 0, and at most 1 when no drawn trade loses more
      than everything. */
  lemma RunDrawdownBounds(ts: seq<Trade>)
    ensures RunDrawdown(ts) >= 0.0
    ensures (forall k :: 0 <= k < |ts| ==> ts[k].pnlPercent >= -1.0) ==> RunDrawdown(ts) <= 1.0
  {
    var path := EquityPath(ts);
    PathEnds(ts);
    Drawdown.MaxDrawdownBounds(path);
    if forall k :: 0 <= k < |ts| ==> ts[k].pnlPercent >= -1.0 {
      forall k | 0 <= k < |path|
        ensures path[k] >= 0.0
      {
        GrowthNonNegative(ts[..k]);
      }
      Drawdown.MaxDrawdownAtMostOne(path);
    }
  }

  /** The pnl and drawdown of every run, in run order. */
  function Finals(trades: seq<Trade>, draws: seq<seq<nat>>): (r: seq<real>)
    requires ValidDraws(draws, |draws|, |trades|)
    ensures |r| == |draws|
  {
    seq(|draws|, i requires 0 <= i < |draws| => RunPnl(Resample(trades, draws[i])))
  }

  function Drawdowns(trades: seq<Trade>, draws: seq<seq<nat>>): (r: seq<real>)
    requires ValidDraws(draws, |draws|, |trades|)
    ensures |r| == |draws|
  {
    seq(|draws|, i requires 0 <= i < |draws| => RunDrawdown(Resample(trades, draws[i])))
  }

  /** Drawing one more trade appends one point, the previous equity times its growth factor. */
  lemma PathStep(ts: seq<Trade>, j: nat)
    requires j < |ts|
    ensures EquityPath(ts[..j + 1]) == EquityPath(ts[..j]) + [EquityPath(ts[..j])[j] * (1.0 + ts[j].pnlPercent)]
  {
    var a := EquityPath(ts[..j + 1]);
    var b := EquityPath(ts[..j]) + [EquityPath(ts[..j])[j] * (1.0 + ts[j].pnlPercent)];
    forall k | 0 <= k <= j
      ensures a[k] == b[k]
    {
      assert ts[..j + 1][..k] == ts[..k];
      assert ts[..j][..k] == ts[..k];
    }
    assert ts[..j + 1][..j] == ts[..j];
    assert ts[..j + 1][..j + 1] == ts[..j + 1];
    assert ts[..j][..j] == ts[..j];
    var f := 1.0 + ts[j].pnlPercent;
    assert Growth(ts[..j + 1]) == Growth(ts[..j]) * f;
    assert a[j + 1] == InitialEquity * (Growth(ts[..j]) * f);
    assert b[j + 1] == (InitialEquity * Growth(ts[..j])) * f;
  }

  /** The loop state of one run: the equity, peak and maximum drawdown of the equity path
      so far. */
  ghost predicate Tracks(path: seq<real>, equity: real, peak: real, maxDrawdown: real)
  {
    && |path| > 0 && path[0] == InitialEquity
    && equity == path[|path| - 1]
    && peak == Drawdown.Peak(path) && peak > 0.0
    && maxDrawdown == Drawdown.MaxDrawdown(path)
  }

  /** One more point keeps the loop state in step with the path. */
  lemma TracksStep(path: seq<real>, equity: real, peak: real, maxDrawdown: real, v: real)
    requires Tracks(path, equity, peak, maxDrawdown)
    ensures var p := Drawdown.StepPeak(peak, v);
            p > 0.0 && Tracks(path + [v], v, p, Drawdown.StepDrawdown(maxDrawdown, p, v))
  {
    Drawdown.PeakAppend(path, v);
    Drawdown.DrawdownAppend(path, v);
  }

  /** One run of the outer loop (lines 153-162): compound the drawn trades in order, tracking
      the run's peak and maximum drawdown. */
  method SimulateRun(resampledTrades: seq<Trade>) returns (currentEquity: real, maxDrawdown: real)
    ensures currentEquity == InitialEquity * Growth(resampledTrades)
    ensures maxDrawdown == RunDrawdown(resampledTrades)
  {
    currentEquity := InitialEquity;
    PathEnds(resampledTrades[..0]);
    var peakEquity := currentEquity;
    maxDrawdown := 0.0;
    for j := 0 to |resampledTrades|
      invariant Tracks(EquityPath(resampledTrades[..j]), currentEquity, peakEquity, maxDrawdown)
    {
      var next := currentEquity * (1.0 + resampledTrades[j].pnlPercent);
      PathStep(resampledTrades, j);
      TracksStep(EquityPath(resampledTrades[..j]), currentEquity, peakEquity, maxDrawdown, next);
      ghost var before := maxDrawdown;
      currentEquity := next;
      if currentEquity > peakEquity { peakEquity := currentEquity; }
      var drawdown := (peakEquity - currentEquity) / peakEquity;
      if drawdown > maxDrawdown { maxDrawdown := drawdown; }
      assert maxDrawdown == Drawdown.StepDrawdown(before, peakEquity, next);
    }
    assert resampledTrades[..|resampledTrades|] == resampledTrades;
    PathEnds(resampledTrades);
  }

  /** A two-trade ledger resampled once in its own order ends at 10000 * 1.1 * 0.95 - 10000. */
  lemma TwoTradeScenario(t1: Trade, t2: Trade)
    requires t1.pnlPercent == 0.1 && t2.pnlPercent == -0.05
    ensures ValidDraws([[0, 1]], 1, 2)
    ensures Finals([t1, t2], [[0, 1]]) == [InitialEquity * 1.1 * 0.95 - InitialEquity]
    ensures Sum(Finals([t1, t2], [[0, 1]])) / 1.0 == InitialEquity * 1.1 * 0.95 - InitialEquity
  {
    var ts := Resample([t1, t2], [0, 1]);
    assert ts == [t1, t2];
    assert ts[..1] == [t1];
    assert [t1][..0] == [];
    assert Growth([t1]) == Growth([]) * (1.0 + t1.pnlPercent);
    assert Growth([t1]) == 1.1;
    assert Growth(ts) == Growth([t1]) * (1.0 + t2.pnlPercent);
  }

  lemma SameElements(a: seq<real>, b: seq<real>)
    requires multiset(a) == multiset(b)
    ensures forall x :: x in a ==> x in b
  {
    forall x | x in a
      ensures x in b
    {
      assert x in multiset(a);
    }
  }

  /** The worst drawdown is at least 0 and at least the drawdown of every run. */
  lemma WorstIsMaximum(trades: seq<Trade>, draws: seq<seq<nat>>)
    requires ValidDraws(draws, |draws|, |trades|)
    ensures MaxFromZero(Drawdowns(trades, draws)) >= 0.0
    ensures forall i :: 0 <= i < |draws| ==> RunDrawdown(Resample(trades, draws[i])) <= MaxFromZero(Drawdowns(trades, draws))
  {
    var ds := Drawdowns(trades, draws);
    MaxFromZeroBounds(ds);
    forall i | 0 <= i < |draws|
      ensures RunDrawdown(Resample(trades, draws[i])) <= MaxFromZero(ds)
    {
      assert ds[i] == RunDrawdown(Resample(trades, draws[i]));
    }
  }

  /** The outer loop (lines 151-163): one simulated run per iteration, collecting each run's
      final pnl and the largest drawdown of any run. */
  method SimulateRuns(trades: seq<Trade>, iterations: nat, draws: seq<seq<nat>>)
    returns (pnlDistribution: seq<real>, worstDrawdown: real)
    requires ValidDraws(draws, iterations, |trades|)
    ensures pnlDistribution == Finals(trades, draws)
    ensures worstDrawdown == MaxFromZero(Drawdowns(trades, draws))
  {
    pnlDistribution := [];
    worstDrawdown := 0.0;
    for i := 0 to iterations
      invariant pnlDistribution == Finals(trades, draws)[..i]
      invariant worstDrawdown == MaxFromZero(Drawdowns(trades, draws)[..i])
    {
      var resampledTrades := seq(|trades|, j requires 0 <= j < |trades| => trades[draws[i][j]]);
      assert resampledTrades == Resample(trades, draws[i]);
      var currentEquity, maxDrawdown := SimulateRun(resampledTrades);
      pnlDistribution := pnlDistribution + [currentEquity - InitialEquity];
      assert Finals(trades, draws)[..i + 1] == Finals(trades, draws)[..i] + [currentEquity - InitialEquity];
      if maxDrawdown > worstDrawdown { worstDrawdown := maxDrawdown; }
      assert Drawdowns(trades, draws)[..i + 1][..i] == Drawdowns(trades, draws)[..i];
    }
    assert Finals(trades, draws)[..iterations] == Finals(trades, draws);
    assert Drawdowns(trades, draws)[..iterations] == Drawdowns(trades, draws);
  }

  method RunMonteCarlo(trades: seq<Trade>, iterations: nat, draws: seq<seq<nat>>) returns (r: MonteCarloResult)
    requires |trades| > 0 ==> iterations >= 1 && ValidDraws(draws, iterations, |trades|)
    ensures |trades| == 0 ==> r == MonteCarloResult(0.0, 0.0, [], 0.0, Interval(0.0, 0.0))
    ensures |trades| > 0 ==>
              var finals := Finals(trades, draws);
              var n := iterations;
              && |r.pnlDistribution| == n
              && Sorted(r.pnlDistribution)
              && multiset(r.pnlDistribution) == multiset(finals)
              && r.meanPnl == Sum(finals) / n as real
              && r.variance == SquaredDeviations(finals, r.meanPnl) / n as real
              && r.worstDrawdown == MaxFromZero(Drawdowns(trades, draws))
              && 0 <= LowerIndex(n) <= UpperIndex(n) < n
              && r.confidenceInterval == Interval(r.pnlDistribution[LowerIndex(n)], r.pnlDistribution[UpperIndex(n)])
              && r.confidenceInterval.lower <= r.confidenceInterval.upper
              && (forall x :: x in r.pnlDistribution ==> x in finals)
              && r.worstDrawdown >= 0.0
              && (forall i :: 0 <= i < n ==> RunDrawdown(Resample(trades, draws[i])) <= r.worstDrawdown)
  {
    if |trades| == 0 {
      return MonteCarloResult(0.0, 0.0, [], 0.0, Interval(0.0, 0.0));
    }
    var pnlDistribution, worstDrawdown := SimulateRuns(trades, iterations, draws);
    var meanPnl := Sum(pnlDistribution) / iterations as real;
    var variance := SquaredDeviations(pnlDistribution, meanPnl) / iterations as real;
    SortAscendingCorrect(pnlDistribution);
    pnlDistribution := SortAscending(pnlDistribution);
    PercentileIndices(iterations);
    var lowerBound := pnlDistribution[LowerIndex(iterations)];
    var upperBound := pnlDistribution[UpperIndex(iterations)];
    r := MonteCarloResult(meanPnl, variance, pnlDistribution, worstDrawdown, Interval(lowerBound, upperBound));
    SameElements(pnlDistribution, Finals(trades, draws));
    WorstIsMaximum(trades, draws);
  }
}
