/** optimizeParams (src/lib/trading.ts:179-205): a grid search. The `reduce` over the keys of
    `paramRanges` builds every combination of one value per key; each combination replaces the
    base strategy's `params` and is backtested, and the first combination with the strictly
    largest profit factor wins. `paramRanges` is taken as its keys in `Object.keys` order, each
    with its list of values. */
module Optimizer {
  import opened Wrappers
  import opened TradingTypes
  import opened Backtest

  type Params = map<string, real>

  /** `{ ...combo, [key]: value }` for every value of the key, in the order of the values. */
  function Row(combo: Params, key: string, values: seq<real>): (r: seq<Params>)
    ensures |r| == |values| && forall j :: 0 <= j < |values| ==> r[j] == combo[key := values[j]]
  {
    seq(|values|, j requires 0 <= j < |values| => combo[key := values[j]])
  }

  /** One step of the `reduce`: every combination so far, extended by every value of `key`. */
  function Expand(acc: seq<Params>, key: string, values: seq<real>): (r: seq<Params>)
    ensures |r| == |acc| * |values|
  {
    if |acc| == 0 then []
    else
      var front := Expand(acc[..|acc| - 1], key, values);
      assert (|acc| - 1) * |values| + |values| == |acc| * |values|;
      front + Row(acc[|acc| - 1], key, values)
  }

  /** The `reduce` over the keys, started from `[{}]`. */
  function Combos(ranges: seq<(string, seq<real>)>): (r: seq<Params>)
    ensures |r| == Product(ranges)
  {
    if |ranges| == 0 then [map[]]
    else Expand(Combos(ranges[..|ranges| - 1]), ranges[|ranges| - 1].0, ranges[|ranges| - 1].1)
  }

  /** The number of combinations: the product of the sizes of the ranges. */
  function Product(ranges: seq<(string, seq<real>)>): nat
  {
    if |ranges| == 0 then 1 else Product(ranges[..|ranges| - 1]) * |ranges[|ranges| - 1].1|
  }

  function KeysOf(ranges: seq<(string, seq<real>)>): set<string>
  {
    set k | 0 <= k < |ranges| :: ranges[k].0
  }

  ghost predicate DistinctKeys(ranges: seq<(string, seq<real>)>)
  {
    forall k, l :: 0 <= k < l < |ranges| ==> ranges[k].0 != ranges[l].0
  }

  /** A combination holds exactly the keys of the ranges, each with one of its own values. */
  ghost predicate Fits(c: Params, ranges: seq<(string, seq<real>)>)
  {
    && c.Keys == KeysOf(ranges)
    && forall k :: 0 <= k < |ranges| ==> ranges[k].0 in c && c[ranges[k].0] in ranges[k].1
  }

  /** The combinations come out combination-major, value-minor: the j-th value of the key
      extends the i-th earlier combination at position i * |values| + j. */
  lemma {:induction false} ExpandAt(acc: seq<Params>, key: string, values: seq<real>, i: nat, j: nat)
    requires i < |acc| && j < |values|
    ensures i * |values| + j < |Expand(acc, key, values)|
    ensures Expand(acc, key, values)[i * |values| + j] == acc[i][key := values[j]]
  {
    var init := acc[..|acc| - 1];
    var m := |values|;
    var front := Expand(init, key, values);
    assert Expand(acc, key, values) == front + Row(acc[|acc| - 1], key, values);
    if i < |init| {
      ExpandAt(init, key, values, i, j);
      assert acc[i] == init[i];
    } else {
      assert i * m == |front|;
    }
  }

  lemma {:induction false} ExpandMember(acc: seq<Params>, key: string, values: seq<real>, c: Params)
    requires c in Expand(acc, key, values)
    ensures exists i, j :: 0 <= i < |acc| && 0 <= j < |values| && c == acc[i][key := values[j]]
  {
    var init := acc[..|acc| - 1];
    if c in Expand(init, key, values) {
      ExpandMember(init, key, values, c);
      var i, j :| 0 <= i < |init| && 0 <= j < |values| && c == init[i][key := values[j]];
      assert acc[i] == init[i];
    } else {
      var row := Row(acc[|acc| - 1], key, values);
      var j :| 0 <= j < |row| && row[j] == c;
      assert c == acc[|acc| - 1][key := values[j]];
    }
  }

  /** No combination at all exactly when some range is empty. */
  lemma {:induction false} ProductZero(ranges: seq<(string, seq<real>)>)
    ensures Product(ranges) == 0 <==> exists k :: 0 <= k < |ranges| && |ranges[k].1| == 0
  {
    if |ranges| > 0 {
      var init := ranges[..|ranges| - 1];
      ProductZero(init);
      if exists k :: 0 <= k < |init| && |init[k].1| == 0 {
        var k :| 0 <= k < |init| && |init[k].1| == 0;
        assert ranges[k] == init[k];
      }
      if exists k :: 0 <= k < |ranges| && |ranges[k].1| == 0 {
        var k :| 0 <= k < |ranges| && |ranges[k].1| == 0;
        if k < |init| { assert init[k] == ranges[k]; }
      }
    }
  }

  lemma KeysOfSnoc(ranges: seq<(string, seq<real>)>)
    requires |ranges| > 0
    ensures KeysOf(ranges) == KeysOf(ranges[..|ranges| - 1]) + {ranges[|ranges| - 1].0}
  {
    var init := ranges[..|ranges| - 1];
    forall x | x in KeysOf(ranges)
      ensures x in KeysOf(init) + {ranges[|ranges| - 1].0}
    {
      var k :| 0 <= k < |ranges| && ranges[k].0 == x;
      if k < |init| { assert init[k] == ranges[k]; }
    }
    forall x | x in KeysOf(init)
      ensures x in KeysOf(ranges)
    {
      var k :| 0 <= k < |init| && init[k].0 == x;
      assert ranges[k] == init[k];
    }
  }

  /** Setting the last key to one of its values extends a fitting combination of the other keys. */
  lemma ExtendFits(a: Params, ranges: seq<(string, seq<real>)>, v: real)
    requires |ranges| > 0 && DistinctKeys(ranges)
    requires Fits(a, ranges[..|ranges| - 1]) && v in ranges[|ranges| - 1].1
    ensures Fits(a[ranges[|ranges| - 1].0 := v], ranges)
  {
    var init := ranges[..|ranges| - 1];
    var key := ranges[|ranges| - 1].0;
    var c := a[key := v];
    KeysOfSnoc(ranges);
    forall k | 0 <= k < |ranges|
      ensures ranges[k].0 in c && c[ranges[k].0] in ranges[k].1
    {
      if k < |init| {
        assert init[k] == ranges[k];
        assert ranges[k].0 != key;
      }
    }
  }

  /** The search has nothing to try exactly when some range is empty; with no keys at all it
      tries the single empty combination. */
  lemma NoCombosIffEmptyRange(ranges: seq<(string, seq<real>)>)
    ensures |Combos(ranges)| == 0 <==> exists k :: 0 <= k < |ranges| && |ranges[k].1| == 0
    ensures |ranges| == 0 ==> Combos(ranges) == [map[]]
  {
    ProductZero(ranges);
  }

  /** When the keys are distinct, every combination holds exactly the keys of the ranges, each
      with a value from its own range. */
  lemma {:induction false} CombosFit(ranges: seq<(string, seq<real>)>)
    requires DistinctKeys(ranges)
    ensures forall c :: c in Combos(ranges) ==> Fits(c, ranges)
  {
    if |ranges| > 0 {
      var init := ranges[..|ranges| - 1];
      var key := ranges[|ranges| - 1].0;
      var values := ranges[|ranges| - 1].1;
      assert DistinctKeys(init);
      CombosFit(init);
      forall c | c in Combos(ranges)
        ensures Fits(c, ranges)
      {
        ExpandMember(Combos(init), key, values, c);
        var i, j :| 0 <= i < |Combos(init)| && 0 <= j < |values| && c == Combos(init)[i][key := values[j]];
        ExtendFits(Combos(init)[i], ranges, values[j]);
      }
    }
  }

  /** The nested `forEach` loops inside the `reduce` (lines 187-195). */
  method BuildCombinations(paramRanges: seq<(string, seq<real>)>) returns (combinations: seq<Params>)
    ensures combinations == Combos(paramRanges)
  {
    combinations := [map[]];
    for r := 0 to |paramRanges|
      invariant combinations == Combos(paramRanges[..r])
    {
      var key := paramRanges[r].0;
      var values := paramRanges[r].1;
      var newAcc: seq<Params> := [];
      for a := 0 to |combinations|
        invariant newAcc == Expand(combinations[..a], key, values)
      {
        for v := 0 to |values|
          invariant newAcc == Expand(combinations[..a], key, values) + Row(combinations[a], key, values)[..v]
        {
          newAcc := newAcc + [combinations[a][key := values[v]]];
        }
        assert combinations[..a + 1][..a] == combinations[..a];
        assert Row(combinations[a], key, values)[..|values|] == Row(combinations[a], key, values);
      }
      assert combinations[..|combinations|] == combinations;
      assert paramRanges[..r + 1][..r] == paramRanges[..r];
      combinations := newAcc;
    }
    assert paramRanges[..|paramRanges|] == paramRanges;
  }

  /** The profit factor of every combination, in the order they are tried. */
  function Scores(base: Strategy, combos: seq<Params>, candles: seq<Candle>, ind: Indicators): (r: seq<ExtReal>)
    requires |candles| >= 1 && MarketOk(candles, base.risk)
    ensures |r| == |combos|
  {
    seq(|combos|, i requires 0 <= i < |combos| => Backtest.Backtest(base.(params := combos[i]), candles, ind).metrics.profitFactor)
  }

  /** `k` is the first index of a largest score: nothing is greater, and it is greater than
      everything before it. */
  ghost predicate IsFirstMax(scores: seq<ExtReal>, k: int)
  {
    && 0 <= k < |scores|
    && (forall j :: 0 <= j < |scores| ==> !Greater(scores[j], scores[k]))
    && (forall j :: 0 <= j < k ==> Greater(scores[k], scores[j]))
  }

  /** The best score so far and where it was found: the state of the selection loop. */
  datatype Choice = Choice(score: ExtReal, index: Option<nat>)

  function BestSoFar(scores: seq<ExtReal>): (c: Choice)
    ensures c.index.None? <==> c.score == NegInf
    ensures c.index.Some? ==> c.index.value < |scores| && c.score == scores[c.index.value]
    ensures c.index.None? ==> forall j :: 0 <= j < |scores| ==> scores[j] == NegInf
  {
    if |scores| == 0 then Choice(NegInf, None)
    else
      var c := BestSoFar(scores[..|scores| - 1]);
      if Greater(scores[|scores| - 1], c.score) then Choice(scores[|scores| - 1], Some(|scores| - 1)) else c
  }

  /** One more score: it becomes the best exactly when it is strictly greater. */
  lemma BestSoFarStep(scores: seq<ExtReal>, i: nat)
    requires i < |scores|
    ensures var c := BestSoFar(scores[..i]);
            BestSoFar(scores[..i + 1]) == if Greater(scores[i], c.score) then Choice(scores[i], Some(i)) else c
  {
    assert scores[..i + 1][..i] == scores[..i];
  }

  /** `>` on numbers that may be infinite is asymmetric, and `a <= b < c` gives `a < c`. */
  lemma GreaterAsymmetric(a: ExtReal, b: ExtReal)
    requires Greater(a, b)
    ensures !Greater(b, a)
  {
  }

  lemma GreaterAfterAtMost(a: ExtReal, b: ExtReal, c: ExtReal)
    requires !Greater(a, b) && Greater(c, b)
    ensures Greater(c, a)
  {
  }

  /** Scores that are never -Infinity leave the selection loop, from -Infinity, at the first
      largest score, and leave it empty-handed only when there is no score at all. */
  lemma {:induction false} BestSoFarIsFirstMax(scores: seq<ExtReal>)
    requires forall j :: 0 <= j < |scores| ==> scores[j] != NegInf
    ensures BestSoFar(scores).index.None? <==> |scores| == 0
    ensures |scores| > 0 ==> var k := BestSoFar(scores).index.value;
                             IsFirstMax(scores, k) && BestSoFar(scores).score == scores[k]
  {
    if |scores| > 0 {
      var n := |scores|;
      var init := scores[..n - 1];
      var last := scores[n - 1];
      BestSoFarIsFirstMax(init);
      var c := BestSoFar(init);
      if n == 1 {
        assert Greater(last, NegInf);
      } else {
        var k0 := c.index.value;
        assert forall j :: 0 <= j < n - 1 ==> scores[j] == init[j];
        if Greater(last, c.score) {
          forall j | 0 <= j < n
            ensures !Greater(scores[j], last)
          {
            if j < n - 1 {
              GreaterAfterAtMost(scores[j], scores[k0], last);
              GreaterAsymmetric(last, scores[j]);
            }
          }
          forall j | 0 <= j < n - 1
            ensures Greater(last, scores[j])
          {
            GreaterAfterAtMost(scores[j], scores[k0], last);
          }
        }
      }
    }
  }

  /** There is only one first largest score. */
  lemma FirstMaxUnique(scores: seq<ExtReal>, k1: int, k2: int)
    requires IsFirstMax(scores, k1) && IsFirstMax(scores, k2)
    ensures k1 == k2
  {
    assert !Greater(scores[k2], scores[k1]);
    assert !Greater(scores[k1], scores[k2]);
  }

  /** Every backtest's profit factor is finite or +Infinity, never -Infinity. */
  lemma ScoresNotNegInf(base: Strategy, combos: seq<Params>, candles: seq<Candle>, ind: Indicators)
    requires |candles| >= 1 && MarketOk(candles, base.risk)
    ensures forall j :: 0 <= j < |combos| ==> Scores(base, combos, candles, ind)[j] != NegInf
  {
  }

  /** The selection loop (lines 196-203): every combination is backtested in turn, and one
      replaces the best so far only with a strictly greater profit factor. */
  method SelectBest(baseStrategy: Strategy, combinations: seq<Params>, candles: seq<Candle>, ind: Indicators)
    returns (bestStrategy: Strategy)
    requires |candles| >= 1 && MarketOk(candles, baseStrategy.risk)
    ensures var c := BestSoFar(Scores(baseStrategy, combinations, candles, ind));
            && (c.index.None? ==> bestStrategy == baseStrategy)
            && (c.index.Some? ==> bestStrategy == baseStrategy.(params := combinations[c.index.value]))
  {
    bestStrategy := baseStrategy;
    var bestProfitFactor := NegInf;
    ghost var scores := Scores(baseStrategy, combinations, candles, ind);
    ghost var bestIndex: Option<nat> := None;
    for i := 0 to |combinations|
      invariant BestSoFar(scores[..i]) == Choice(bestProfitFactor, bestIndex)
      invariant bestIndex.None? ==> bestStrategy == baseStrategy
      invariant bestIndex.Some? ==> bestIndex.value < |combinations|
                                    && bestStrategy == baseStrategy.(params := combinations[bestIndex.value])
    {
      var currentStrategy := baseStrategy.(params := combinations[i]);
      var result := RunBacktest(currentStrategy, candles, ind);
      BestSoFarStep(scores, i);
      if Greater(result.metrics.profitFactor, bestProfitFactor) {
        bestProfitFactor := result.metrics.profitFactor;
        bestStrategy := currentStrategy;
        bestIndex := Some(i);
      }
    }
    assert scores[..|combinations|] == scores;
  }

  /** optimizeParams. With no combination the base strategy comes back; otherwise the base
      strategy with its `params` replaced wholesale by the first combination whose backtest has
      the largest profit factor. */
  method OptimizeParams(baseStrategy: Strategy, paramRanges: seq<(string, seq<real>)>,
                        candles: seq<Candle>, ind: Indicators) returns (bestStrategy: Strategy)
    requires |candles| >= 1 && MarketOk(candles, baseStrategy.risk)
    ensures bestStrategy.kind == baseStrategy.kind && bestStrategy.risk == baseStrategy.risk
    ensures |Combos(paramRanges)| == 0 ==> bestStrategy == baseStrategy
    ensures |Combos(paramRanges)| > 0 ==>
              exists k :: IsFirstMax(Scores(baseStrategy, Combos(paramRanges), candles, ind), k)
                          && bestStrategy == baseStrategy.(params := Combos(paramRanges)[k])
  {
    var combinations := BuildCombinations(paramRanges);
    bestStrategy := SelectBest(baseStrategy, combinations, candles, ind);
    ghost var scores := Scores(baseStrategy, combinations, candles, ind);
    ScoresNotNegInf(baseStrategy, combinations, candles, ind);
    BestSoFarIsFirstMax(scores);
  }
}
