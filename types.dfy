/** The records of src/lib/trading.ts. JavaScript numbers are modelled as `real`
    (timestamps as `int`); floating-point rounding is not modelled. */
module TradingTypes {
  import opened Wrappers

  /** The fixed starting equity of every backtest and every Monte Carlo run. */
  const InitialEquity: real := 10000.0

  datatype Candle = Candle(timestamp: int, open: real, high: real, low: real, close: real, volume: real)

  datatype StrategyKind = SmaCross | RsiFilter

  datatype Risk = Risk(positionSizePercent: real, stopLossPercent: real, slippagePercent: real, feePercent: real)

  /** `params` is the string-keyed number dictionary of the source; a missing key reads as `undefined`. */
  datatype Strategy = Strategy(kind: StrategyKind, params: map<string, real>, risk: Risk)

  datatype Side = Long | Short

  datatype Trade = Trade(entryTime: int, exitTime: int, entryPrice: real, exitPrice: real,
                         pnl: real, pnlPercent: real, side: Side)

  /** Numbers that may be infinite: `profitFactor` is `Infinity` without losses and the
      optimizer starts from `-Infinity`. */
  datatype ExtReal = NegInf | Finite(value: real) | PosInf

  /** JavaScript's `a > b` on numbers that may be infinite. */
  predicate Greater(a: ExtReal, b: ExtReal)
  {
    match (a, b)
    case (PosInf, PosInf) => false
    case (PosInf, _) => true
    case (Finite(x), Finite(y)) => x > y
    case (Finite(_), NegInf) => true
    case (_, _) => false
  }

  datatype Metrics = Metrics(netProfit: real, winRate: real, totalTrades: nat,
                             profitFactor: ExtReal, maxDrawdown: real)

  /** One point of the equity curve; the source stores the bar's date formatted with
      `toLocaleDateString`, the model keeps the bar's timestamp instead. */
  datatype EquityPoint = EquityPoint(time: int, value: real)

  datatype BacktestResult = BacktestResult(trades: seq<Trade>, metrics: Metrics,
                                           equityCurve: seq<EquityPoint>,
                                           indicatorSeries: map<string, seq<real>>)

  /** The `technicalindicators` library, a foreign dependency: each series is computed from the
      close prices and the period read from `params` (`None` when the key is absent). */
  datatype Indicators = Indicators(sma: (seq<real>, Option<real>) -> seq<real>,
                                   rsi: (seq<real>, Option<real>) -> seq<real>)

  function Param(s: Strategy, key: string): Option<real>
  {
    if key in s.params then Some(s.params[key]) else None
  }

  function Closes(candles: seq<Candle>): (r: seq<real>)
    ensures |r| == |candles|
    ensures forall k :: 0 <= k < |candles| ==> r[k] == candles[k].close
  {
    seq(|candles|, k requires 0 <= k < |candles| => candles[k].close)
  }
}
