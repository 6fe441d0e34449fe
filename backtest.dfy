/** runBacktest (src/lib/trading.ts:50-145): a bar-by-bar state machine over the candles. The
    closures `closePosition`/`openPosition` mutate the state they capture; the model keeps that
    state in an object of class `Backtester`, whose methods are proved against the pure
    transition functions below, and `RunBacktest` is proved equal to the fold `Backtest`. */
module Backtest {
  import opened Wrappers
  import opened TradingTypes
  import opened Signals
  import opened LedgerMetrics
  import Drawdown

  datatype Position = Position(entryPrice: real, side: Side, entryTime: int)

  /** Everything runBacktest's loop updates. */
  datatype RunState = RunState(equity: real, position: Option<Position>, trades: seq<Trade>,
                               equityCurve: seq<EquityPoint>, peakEquity: real, maxDrawdown: real)

  /** The source divides by the entry price and by the peak equity; it never checks them. The
      model asks for positive opening prices and a slippage above -100 %, which keep every entry
      price positive. */
  ghost predicate MarketOk(candles: seq<Candle>, risk: Risk)
  {
    risk.slippagePercent > -100.0 && forall k :: 0 <= k < |candles| ==> candles[k].open > 0.0
  }

  /** The invariant every reachable state keeps: the peak is positive and only long positions
      are ever opened, at a positive price. */
  ghost predicate Reachable(s: RunState)
  {
    && s.peakEquity > 0.0
    && (s.position.Some? ==> s.position.value.entryPrice > 0.0 && s.position.value.side == Long)
    && (forall k :: 0 <= k < |s.trades| ==> s.trades[k].side == Long)
  }

  function Direction(side: Side): real
  {
    if side == Long then 1.0 else -1.0
  }

  /** The seed state: equity 10000, flat, one equity point for bar 0 (lines 51-57). */
  function Initial(first: Candle): RunState
  {
    RunState(InitialEquity, None, [], [EquityPoint(first.timestamp, InitialEquity)], InitialEquity, 0.0)
  }

  /** The exit fill: slipped against the trader (lines 69-70). */
  function ExitFill(side: Side, risk: Risk, exitPrice: real): real
  {
    var slippage := exitPrice * (risk.slippagePercent / 100.0);
    if side == Long then exitPrice - slippage else exitPrice + slippage
  }

  /** The entry fill: slipped against the trader (lines 88-89). */
  function EntryFill(side: Side, risk: Risk, price: real): real
  {
    var slippage := price * (risk.slippagePercent / 100.0);
    if side == Long then price + slippage else price - slippage
  }

  /** The trade recorded when `pos` is closed at `exitPrice` (lines 69-84). */
  function Settle(pos: Position, risk: Risk, exitTime: int, exitPrice: real): (t: Trade)
    requires pos.entryPrice != 0.0
    ensures t.entryTime == pos.entryTime && t.exitTime == exitTime && t.side == pos.side
    ensures t.entryPrice == pos.entryPrice && t.exitPrice == ExitFill(pos.side, risk, exitPrice)
    ensures t.pnl == (t.exitPrice - t.entryPrice) * Direction(t.side)
                     - (t.entryPrice + t.exitPrice) * (risk.feePercent / 100.0)
    ensures t.pnlPercent * t.entryPrice == t.pnl
  {
    var finalExitPrice := ExitFill(pos.side, risk, exitPrice);
    var pnl := (finalExitPrice - pos.entryPrice) * Direction(pos.side);
    var fee := (pos.entryPrice + finalExitPrice) * (risk.feePercent / 100.0);
    var netPnl := pnl - fee;
    Trade(pos.entryTime, exitTime, pos.entryPrice, finalExitPrice, netPnl, netPnl / pos.entryPrice, pos.side)
  }

  /** The equity after closing a trade: a `positionSizePercent` share of it earns `pnlPercent` (line 75). */
  function Compounded(equity: real, risk: Risk, pnlPercent: real): real
  {
    equity + equity * (risk.positionSizePercent / 100.0) * pnlPercent
  }

  /** closePosition (lines 67-86); it returns without effect when no position is open. */
  function AfterClose(s: RunState, risk: Risk, exitTime: int, exitPrice: real): (r: RunState)
    requires s.position.Some? ==> s.position.value.entryPrice != 0.0
    ensures s.position.None? ==> r == s
    ensures s.position.Some? ==>
              && r == s.(equity := r.equity, trades := r.trades, position := None)
              && r.trades == s.trades + [Settle(s.position.value, risk, exitTime, exitPrice)]
              && r.equity == s.equity * (1.0 + risk.positionSizePercent / 100.0 * r.trades[|s.trades|].pnlPercent)
  {
    if s.position.None? then s
    else
      var t := Settle(s.position.value, risk, exitTime, exitPrice);
      s.(equity := Compounded(s.equity, risk, t.pnlPercent), trades := s.trades + [t], position := None)
  }

  /** openPosition (lines 87-91). */
  function AfterOpen(s: RunState, risk: Risk, time: int, price: real, side: Side): (r: RunState)
    ensures r == s.(position := r.position)
    ensures r.position.Some? && r.position.value.side == side && r.position.value.entryTime == time
    ensures r.position.value.entryPrice == price * (1.0 + Direction(side) * (risk.slippagePercent / 100.0))
  {
    s.(position := Some(Position(EntryFill(side, risk, price), side, time)))
  }

  /** The return of the open position measured at the bar's worst price (lines 113-115). */
  function WorstReturn(pos: Position, candle: Candle): (w: real)
    requires pos.entryPrice != 0.0
    ensures w * pos.entryPrice == (if pos.side == Long then candle.low - pos.entryPrice else pos.entryPrice - candle.high)
  {
    if pos.side == Long then (candle.low - pos.entryPrice) / pos.entryPrice
    else (pos.entryPrice - candle.high) / pos.entryPrice
  }

  /** The stop test (line 116): for a positive entry, a long stop is hit exactly when the low
      falls below the stop price, a short one when the high rises above it. */
  function StopHit(pos: Position, risk: Risk, candle: Candle): (hit: bool)
    requires pos.entryPrice != 0.0
    ensures pos.entryPrice > 0.0 && pos.side == Long ==> (hit <==> candle.low < StopPrice(pos, risk))
    ensures pos.entryPrice > 0.0 && pos.side == Short ==> (hit <==> candle.high > StopPrice(pos, risk))
  {
    ReturnBelowStop(WorstReturn(pos, candle), pos.entryPrice, risk.stopLossPercent);
    WorstReturn(pos, candle) * 100.0 < -risk.stopLossPercent
  }

  /** For a positive entry `e`, a return `w` is below `-stopLoss` percent exactly when `w * e`
      is below `-stopLoss` percent of `e`. */
  lemma ReturnBelowStop(w: real, e: real, stopLoss: real)
    ensures e > 0.0 ==> (w * 100.0 < -stopLoss <==> w * e < -(stopLoss / 100.0) * e)
  {
    if e > 0.0 {
      var q := stopLoss / 100.0;
      assert w * 100.0 < -stopLoss <==> w < -q;
      if w < -q {
        assert w * e < -q * e;
      } else {
        assert w * e >= -q * e;
      }
    }
  }

  /** The stop-loss exit price before slippage (line 117). */
  function StopPrice(pos: Position, risk: Risk): (p: real)
    ensures pos.side == Long ==> p == pos.entryPrice - (risk.stopLossPercent / 100.0) * pos.entryPrice
    ensures pos.side == Short ==> p == pos.entryPrice + (risk.stopLossPercent / 100.0) * pos.entryPrice
  {
    pos.entryPrice * (1.0 - (risk.stopLossPercent / 100.0) * Direction(pos.side))
  }

  /** The position step of one bar (lines 112-128): the stop first, then a signal exit; an entry
      only when flat. */
  function AfterSignal(s: RunState, risk: Risk, candle: Candle, signal: Signal): (r: RunState)
    requires s.position.Some? ==> s.position.value.entryPrice != 0.0
    ensures r.equityCurve == s.equityCurve && r.peakEquity == s.peakEquity && r.maxDrawdown == s.maxDrawdown
    ensures s.position.None? ==> r.trades == s.trades && r.equity == s.equity && (r.position.Some? <==> signal == Buy)
    ensures s.position.Some? ==>
              (r.position.None? <==> StopHit(s.position.value, risk, candle)
                                     || (s.position.value.side == Long && signal == Sell)
                                     || (s.position.value.side == Short && signal == Buy))
    ensures s.position.Some? && r.position.Some? ==> r == s
    ensures s.position.Some? && r.position.None? ==> |r.trades| == |s.trades| + 1 && r.trades[..|s.trades|] == s.trades
  {
    if s.position.Some? then
      var pos := s.position.value;
      if StopHit(pos, risk, candle) then AfterClose(s, risk, candle.timestamp, StopPrice(pos, risk))
      else if pos.side == Long && signal == Sell then AfterClose(s, risk, candle.timestamp, candle.open)
      else if pos.side == Short && signal == Buy then AfterClose(s, risk, candle.timestamp, candle.open)
      else s
    else if signal == Buy then AfterOpen(s, risk, candle.timestamp, candle.open, Long)
    else s
  }

  /** The bookkeeping of one bar (lines 129-132): an equity point, the peak, the drawdown. */
  function AfterRecord(s: RunState, candle: Candle): (r: RunState)
    requires s.peakEquity > 0.0
    ensures r == s.(equityCurve := r.equityCurve, peakEquity := r.peakEquity, maxDrawdown := r.maxDrawdown)
    ensures r.equityCurve == s.equityCurve + [EquityPoint(candle.timestamp, s.equity)]
    ensures r.peakEquity >= s.peakEquity && r.peakEquity >= s.equity
    ensures r.peakEquity == s.peakEquity || r.peakEquity == s.equity
    ensures r.maxDrawdown >= s.maxDrawdown && r.maxDrawdown >= (r.peakEquity - s.equity) / r.peakEquity
  {
    var peak := Drawdown.StepPeak(s.peakEquity, s.equity);
    s.(equityCurve := s.equityCurve + [EquityPoint(candle.timestamp, s.equity)],
       peakEquity := peak,
       maxDrawdown := Drawdown.StepDrawdown(s.maxDrawdown, peak, s.equity))
  }

  function AfterBar(s: RunState, strategy: Strategy, series: map<string, seq<real>>,
                    candles: seq<Candle>, i: nat): (r: RunState)
    requires 1 <= i < |candles| && MarketOk(candles, strategy.risk) && Reachable(s)
    ensures Reachable(r)
  {
    var candle := candles[i];
    var mid := AfterSignal(s, strategy.risk, candle, SignalAt(strategy, series, candle, i));
    assert Reachable(mid) by { EntryPositive(strategy.risk, candle.open); }
    AfterRecord(mid, candle)
  }

  lemma EntryPositive(risk: Risk, price: real)
    requires price > 0.0 && risk.slippagePercent > -100.0
    ensures EntryFill(Long, risk, price) > 0.0
  {
    var f := 1.0 + risk.slippagePercent / 100.0;
    assert EntryFill(Long, risk, price) == price * f;
    assert f > 0.0;
  }

  /** The state after bars 1 .. n-1 (the loop at line 92 stopped before bar n). */
  function StateAfter(strategy: Strategy, candles: seq<Candle>, series: map<string, seq<real>>, n: nat): (r: RunState)
    requires 1 <= n <= |candles| && MarketOk(candles, strategy.risk)
    ensures Reachable(r)
  {
    if n == 1 then Initial(candles[0])
    else AfterBar(StateAfter(strategy, candles, series, n - 1), strategy, series, candles, n - 1)
  }

  /** runBacktest as a function of its inputs. */
  function Backtest(strategy: Strategy, candles: seq<Candle>, ind: Indicators): (r: BacktestResult)
    requires |candles| >= 1 && MarketOk(candles, strategy.risk)
    ensures r.indicatorSeries == IndicatorSeries(strategy, candles, ind)
    ensures forall k :: 0 <= k < |r.trades| ==> r.trades[k].side == Long
    ensures r.metrics.totalTrades == |r.trades|
    ensures r.metrics.netProfit + InitialEquity == StateAfter(strategy, candles, r.indicatorSeries, |candles|).equity
    ensures r.metrics.maxDrawdown == StateAfter(strategy, candles, r.indicatorSeries, |candles|).maxDrawdown
  {
    var series := IndicatorSeries(strategy, candles, ind);
    var s := StateAfter(strategy, candles, series, |candles|);
    BacktestResult(s.trades, ComputeMetrics(s.trades, s.equity, s.maxDrawdown), s.equityCurve, series)
  }

  /** The state the closures of runBacktest capture. */
  class Backtester {
    const risk: Risk
    var equity: real
    var position: Option<Position>
    var trades: seq<Trade>
    var equityCurve: seq<EquityPoint>
    var peakEquity: real
    var maxDrawdown: real

    function State(): RunState
      reads this
    {
      RunState(equity, position, trades, equityCurve, peakEquity, maxDrawdown)
    }

    constructor (risk: Risk, first: Candle)
      ensures this.risk == risk && State() == Initial(first)
    {
      this.risk := risk;
      equity := InitialEquity;
      position := None;
      trades := [];
      equityCurve := [EquityPoint(first.timestamp, InitialEquity)];
      peakEquity := InitialEquity;
      maxDrawdown := 0.0;
    }

    method ClosePosition(exitTime: int, exitPrice: real)
      requires position.Some? ==> position.value.entryPrice != 0.0
      modifies this
      ensures State() == AfterClose(old(State()), risk, exitTime, exitPrice)
    {
      if position.None? { return; }
      var pos := position.value;
      var slippage := exitPrice * (risk.slippagePercent / 100.0);
      var finalExitPrice := if pos.side == Long then exitPrice - slippage else exitPrice + slippage;
      var pnl := (finalExitPrice - pos.entryPrice) * (if pos.side == Long then 1.0 else -1.0);
      var fee := (pos.entryPrice + finalExitPrice) * (risk.feePercent / 100.0);
      var netPnl := pnl - fee;
      var pnlPercent := netPnl / pos.entryPrice;
      assert Trade(pos.entryTime, exitTime, pos.entryPrice, finalExitPrice, netPnl, pnlPercent, pos.side)
          == Settle(pos, risk, exitTime, exitPrice);
      equity := equity + equity * (risk.positionSizePercent / 100.0) * pnlPercent;
      trades := trades + [Trade(pos.entryTime, exitTime, pos.entryPrice, finalExitPrice, netPnl, pnlPercent, pos.side)];
      position := None;
    }

    method OpenPosition(time: int, price: real, side: Side)
      modifies this
      ensures State() == AfterOpen(old(State()), risk, time, price, side)
    {
      var slippage := price * (risk.slippagePercent / 100.0);
      var entryPrice := if side == Long then price + slippage else price - slippage;
      assert entryPrice == EntryFill(side, risk, price);
      position := Some(Position(entryPrice, side, time));
    }

    /** Lines 112-128 of the bar loop. */
    method ApplySignal(candle: Candle, signal: Signal)
      requires position.Some? ==> position.value.entryPrice != 0.0
      modifies this
      ensures State() == AfterSignal(old(State()), risk, candle, signal)
    {
      if position.Some? {
        var pos := position.value;
        var pnlPercent := if pos.side == Long then (candle.low - pos.entryPrice) / pos.entryPrice
                          else (pos.entryPrice - candle.high) / pos.entryPrice;
        assert pnlPercent == WorstReturn(pos, candle);
        if pnlPercent * 100.0 < -risk.stopLossPercent {
          var exitPrice := pos.entryPrice * (1.0 - (risk.stopLossPercent / 100.0) * (if pos.side == Long then 1.0 else -1.0));
          assert exitPrice == StopPrice(pos, risk);
          ClosePosition(candle.timestamp, exitPrice);
        } else if pos.side == Long && signal == Sell {
          ClosePosition(candle.timestamp, candle.open);
        } else if pos.side == Short && signal == Buy {
          ClosePosition(candle.timestamp, candle.open);
        }
      } else {
        if signal == Buy {
          OpenPosition(candle.timestamp, candle.open, Long);
        }
      }
    }

    /** One iteration of the bar loop (lines 93-132). */
    method ProcessBar(strategy: Strategy, series: map<string, seq<real>>, candles: seq<Candle>, i: nat)
      requires strategy.risk == risk && 1 <= i < |candles| && MarketOk(candles, risk) && Reachable(State())
      modifies this
      ensures State() == AfterBar(old(State()), strategy, series, candles, i)
    {
      var candle := candles[i];
      var signal := SignalAt(strategy, series, candle, i);
      ApplySignal(candle, signal);
      Record(candle);
    }

    /** Lines 129-132 of the bar loop. */
    method Record(candle: Candle)
      requires peakEquity > 0.0
      modifies this
      ensures State() == AfterRecord(old(State()), candle)
    {
      equityCurve := equityCurve + [EquityPoint(candle.timestamp, equity)];
      if equity > peakEquity { peakEquity := equity; }
      var drawdown := (peakEquity - equity) / peakEquity;
      if drawdown > maxDrawdown { maxDrawdown := drawdown; }
    }
  }

  method RunBacktest(strategy: Strategy, candles: seq<Candle>, ind: Indicators) returns (result: BacktestResult)
    requires |candles| >= 1 && MarketOk(candles, strategy.risk)
    ensures result == Backtest(strategy, candles, ind)
  {
    var bt := new Backtester(strategy.risk, candles[0]);
    var series := IndicatorSeries(strategy, candles, ind);
    for i := 1 to |candles|
      invariant bt.risk == strategy.risk
      invariant bt.State() == StateAfter(strategy, candles, series, i)
    {
      bt.ProcessBar(strategy, series, candles, i);
    }
    var s := bt.State();
    result := BacktestResult(s.trades, ComputeMetrics(s.trades, s.equity, s.maxDrawdown), s.equityCurve, series);
  }
}
