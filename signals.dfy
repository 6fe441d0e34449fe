/** The per-bar signal of runBacktest (src/lib/trading.ts:94-111). */
module Signals {
  import opened Wrappers
  import opened TradingTypes

  datatype Signal = Buy | Sell | NoSignal

  /** JavaScript's `series?.[i - period - offset]` followed by a truthiness test: the read is
      `undefined` when the period is missing (the index is `NaN`), when the index is not an
      integer, negative or past the end, and a stored `0` is falsy as well. */
  function Lookup(series: seq<real>, i: int, period: Option<real>, offset: int): (r: Option<real>)
    ensures r.Some? <==> period.Some?
                         && (i as real - period.value - offset as real).Floor as real == i as real - period.value - offset as real
                         && 0 <= (i as real - period.value - offset as real).Floor < |series|
                         && series[(i as real - period.value - offset as real).Floor] != 0.0
    ensures r.Some? ==> r.value != 0.0 && r.value == series[(i as real - period.value - offset as real).Floor]
  {
    if period.None? then None
    else
      var idx := i as real - period.value - offset as real;
      if idx.Floor as real == idx && 0 <= idx.Floor < |series| && series[idx.Floor] != 0.0
      then Some(series[idx.Floor])
      else None
  }

  /** SMA cross (lines 95-103): the two assignments run in sequence, the later one winning. */
  function SmaCrossSignal(short: seq<real>, long: seq<real>, shortPeriod: Option<real>,
                          longPeriod: Option<real>, i: int): (r: Signal)
    ensures r != NoSignal ==> shortPeriod.Some? && longPeriod.Some?
                              && i as real >= shortPeriod.value + 1.0 && i as real >= longPeriod.value + 1.0
  {
    var s := Lookup(short, i, shortPeriod, 0);
    var l := Lookup(long, i, longPeriod, 0);
    var ps := Lookup(short, i, shortPeriod, 1);
    var pl := Lookup(long, i, longPeriod, 1);
    if s.Some? && l.Some? && ps.Some? && pl.Some? then
      var afterBuy := if ps.value <= pl.value && s.value > l.value then Buy else NoSignal;
      if ps.value >= pl.value && s.value < l.value then Sell else afterBuy
    else NoSignal
  }

  /** RSI filter (lines 104-110); a missing `rsiLower`/`rsiUpper` makes its comparison false. */
  function RsiFilterSignal(rsi: seq<real>, sma: seq<real>, rsiPeriod: Option<real>, smaPeriod: Option<real>,
                           rsiLower: Option<real>, rsiUpper: Option<real>, close: real, i: int): (s: Signal)
    ensures s != NoSignal ==> rsiPeriod.Some? && smaPeriod.Some?
                              && i as real >= rsiPeriod.value && i as real >= smaPeriod.value
    ensures s == Buy ==> rsiLower.Some?
    ensures s == Sell ==> rsiUpper.Some?
  {
    var r := Lookup(rsi, i, rsiPeriod, 0);
    var m := Lookup(sma, i, smaPeriod, 0);
    if r.Some? && m.Some? then
      var afterBuy := if close > m.value && rsiLower.Some? && r.value < rsiLower.value then Buy else NoSignal;
      if close < m.value && rsiUpper.Some? && r.value > rsiUpper.value then Sell else afterBuy
    else NoSignal
  }

  /** The indicator series the strategy computes once up front (lines 58-66). */
  function IndicatorSeries(strategy: Strategy, candles: seq<Candle>, ind: Indicators): (r: map<string, seq<real>>)
    ensures strategy.kind == SmaCross ==>
              && r.Keys == {"smaShort", "smaLong"}
              && r["smaShort"] == ind.sma(Closes(candles), Param(strategy, "shortPeriod"))
              && r["smaLong"] == ind.sma(Closes(candles), Param(strategy, "longPeriod"))
    ensures strategy.kind == RsiFilter ==>
              && r.Keys == {"rsi", "sma"}
              && r["rsi"] == ind.rsi(Closes(candles), Param(strategy, "rsiPeriod"))
              && r["sma"] == ind.sma(Closes(candles), Param(strategy, "smaPeriod"))
  {
    var closes := Closes(candles);
    match strategy.kind
    case SmaCross => map["smaShort" := ind.sma(closes, Param(strategy, "shortPeriod")),
                         "smaLong" := ind.sma(closes, Param(strategy, "longPeriod"))]
    case RsiFilter => map["rsi" := ind.rsi(closes, Param(strategy, "rsiPeriod")),
                          "sma" := ind.sma(closes, Param(strategy, "smaPeriod"))]
  }

  function SeriesOr(series: map<string, seq<real>>, key: string): seq<real>
  {
    if key in series then series[key] else []
  }

  /** The signal at bar `i`. */
  function SignalAt(strategy: Strategy, series: map<string, seq<real>>, candle: Candle, i: int): (r: Signal)
    ensures r != NoSignal && strategy.kind == SmaCross ==>
              "shortPeriod" in strategy.params && "longPeriod" in strategy.params
    ensures r != NoSignal && strategy.kind == RsiFilter ==>
              "rsiPeriod" in strategy.params && "smaPeriod" in strategy.params
    ensures r == Buy && strategy.kind == RsiFilter ==> "rsiLower" in strategy.params
    ensures r == Sell && strategy.kind == RsiFilter ==> "rsiUpper" in strategy.params
  {
    match strategy.kind
    case SmaCross =>
      SmaCrossSignal(SeriesOr(series, "smaShort"), SeriesOr(series, "smaLong"),
                     Param(strategy, "shortPeriod"), Param(strategy, "longPeriod"), i)
    case RsiFilter =>
      RsiFilterSignal(SeriesOr(series, "rsi"), SeriesOr(series, "sma"),
                      Param(strategy, "rsiPeriod"), Param(strategy, "smaPeriod"),
                      Param(strategy, "rsiLower"), Param(strategy, "rsiUpper"), candle.close, i)
  }

  /** The crossing rule, both directions of each equivalence. */
  lemma SmaCrossRule(short: seq<real>, long: seq<real>, sp: Option<real>, lp: Option<real>, i: int)
    ensures var s, l := Lookup(short, i, sp, 0), Lookup(long, i, lp, 0);
            var ps, pl := Lookup(short, i, sp, 1), Lookup(long, i, lp, 1);
            var present := s.Some? && l.Some? && ps.Some? && pl.Some?;
            && (SmaCrossSignal(short, long, sp, lp, i) == Buy <==>
                  present && ps.value <= pl.value && s.value > l.value)
            && (SmaCrossSignal(short, long, sp, lp, i) == Sell <==>
                  present && ps.value >= pl.value && s.value < l.value)
  {
  }

  /** The RSI filter rule, both directions of each equivalence. */
  lemma RsiFilterRule(rsi: seq<real>, sma: seq<real>, rp: Option<real>, mp: Option<real>,
                      lower: Option<real>, upper: Option<real>, close: real, i: int)
    ensures var r, m := Lookup(rsi, i, rp, 0), Lookup(sma, i, mp, 0);
            && (RsiFilterSignal(rsi, sma, rp, mp, lower, upper, close, i) == Buy <==>
                  r.Some? && m.Some? && close > m.value && lower.Some? && r.value < lower.value)
            && (RsiFilterSignal(rsi, sma, rp, mp, lower, upper, close, i) == Sell <==>
                  r.Some? && m.Some? && close < m.value && upper.Some? && r.value > upper.value)
  {
  }

  /** A missing period (absent `params` key) silences the strategy. */
  lemma MissingPeriodGivesNoSignal(strategy: Strategy, series: map<string, seq<real>>, candle: Candle, i: int)
    requires strategy.kind == SmaCross ==> "shortPeriod" !in strategy.params || "longPeriod" !in strategy.params
    requires strategy.kind == RsiFilter ==> "rsiPeriod" !in strategy.params || "smaPeriod" !in strategy.params
    ensures SignalAt(strategy, series, candle, i) == NoSignal
  {
  }

  /** Before the series have `period + 1` values behind bar `i`, nothing is signalled. */
  lemma WarmUpGivesNoSignal(short: seq<real>, long: seq<real>, sp: real, lp: real, i: int)
    requires i as real < sp + 1.0 || i as real < lp + 1.0
    ensures SmaCrossSignal(short, long, Some(sp), Some(lp), i) == NoSignal
  {
  }

  /** A zero indicator value is falsy in JavaScript and reads as missing. */
  lemma ZeroValueIsMissing(series: seq<real>, k: nat, i: int, period: real)
    requires k < |series| && series[k] == 0.0 && i as real - period == k as real
    ensures Lookup(series, i, Some(period), 0) == None
  {
  }
}
