/** What runBacktest promises, proved about the fold `Backtest.StateAfter` that
    `Backtest.RunBacktest` is proved equal to. */
module BacktestProperties {
  import opened Wrappers
  import opened TradingTypes
  import opened Signals
  import opened LedgerMetrics
  import opened Backtest
  import Drawdown

  function Values(curve: seq<EquityPoint>): (vs: seq<real>)
    ensures |vs| == |curve| && forall k :: 0 <= k < |curve| ==> vs[k] == curve[k].value
  {
    seq(|curve|, k requires 0 <= k < |curve| => curve[k].value)
  }

  /** The product of `1 + positionSizePercent/100 * pnlPercent` over the ledger: the factor by
      which the closed trades have grown the equity. */
  function SizedGrowth(trades: seq<Trade>, risk: Risk): real
  {
    if |trades| == 0 then 1.0
    else SizedGrowth(trades[..|trades| - 1], risk) * (1.0 + risk.positionSizePercent / 100.0 * trades[|trades| - 1].pnlPercent)
  }

  /** Each bar appends one equity point holding the equity after the bar, then applies the
      incremental peak and drawdown rule to that value. */
  lemma BarRecords(s: RunState, strategy: Strategy, series: map<string, seq<real>>, candles: seq<Candle>, i: nat)
    requires 1 <= i < |candles| && MarketOk(candles, strategy.risk) && Reachable(s)
    ensures var r := AfterBar(s, strategy, series, candles, i);
            && r.equityCurve == s.equityCurve + [EquityPoint(candles[i].timestamp, r.equity)]
            && r.peakEquity == Drawdown.StepPeak(s.peakEquity, r.equity)
            && r.maxDrawdown == Drawdown.StepDrawdown(s.maxDrawdown, r.peakEquity, r.equity)
  {
  }

  /** The peak never decreases from bar to bar, and neither does the maximum drawdown, which
      therefore stays at or above its starting value 0. */
  lemma BarMonotone(s: RunState, strategy: Strategy, series: map<string, seq<real>>, candles: seq<Candle>, i: nat)
    requires 1 <= i < |candles| && MarketOk(candles, strategy.risk) && Reachable(s)
    ensures var r := AfterBar(s, strategy, series, candles, i);
            r.peakEquity >= s.peakEquity && r.maxDrawdown >= s.maxDrawdown
  {
    BarRecords(s, strategy, series, candles, i);
  }

  /** `r` follows `s` by closing at most one trade and keeping the earlier ones; equity moves
      only when a trade is closed, and then by `positionSizePercent` of the trade's return. */
  ghost predicate LedgerStep(s: RunState, r: RunState, risk: Risk)
  {
    && (|r.trades| == |s.trades| || |r.trades| == |s.trades| + 1)
    && r.trades[..|s.trades|] == s.trades
    && (|r.trades| == |s.trades| ==> r.equity == s.equity)
    && (|r.trades| == |s.trades| + 1 ==>
          r.equity == s.equity * (1.0 + risk.positionSizePercent / 100.0 * r.trades[|s.trades|].pnlPercent))
  }

  /** Each bar closes at most one trade and keeps the earlier ones; equity moves only when a
      trade is closed, and then by `positionSizePercent` of the trade's return. */
  lemma SignalLedger(s: RunState, risk: Risk, c: Candle, signal: Signal)
    requires s.position.Some? ==> s.position.value.entryPrice > 0.0
    ensures LedgerStep(s, AfterSignal(s, risk, c, signal), risk)
  {
    if s.position.Some? {
      var pos := s.position.value;
      if StopHit(pos, risk, c) {
        CloseLedger(s, risk, c.timestamp, StopPrice(pos, risk));
      } else {
        CloseLedger(s, risk, c.timestamp, c.open);
      }
    } else {
      assert s.trades[..|s.trades|] == s.trades;
    }
  }

  lemma BarLedger(s: RunState, strategy: Strategy, series: map<string, seq<real>>, candles: seq<Candle>, i: nat)
    requires 1 <= i < |candles| && MarketOk(candles, strategy.risk) && Reachable(s)
    ensures LedgerStep(s, AfterBar(s, strategy, series, candles, i), strategy.risk)
  {
    var c := candles[i];
    var mid := AfterSignal(s, strategy.risk, c, SignalAt(strategy, series, c, i));
    SignalLedger(s, strategy.risk, c, SignalAt(strategy, series, c, i));
    var r := AfterBar(s, strategy, series, candles, i);
    assert r == AfterRecord(mid, c);
    LedgerKeeps(s, mid, r, strategy.risk);
  }

  lemma LedgerKeeps(s: RunState, mid: RunState, r: RunState, risk: Risk)
    requires LedgerStep(s, mid, risk) && r.trades == mid.trades && r.equity == mid.equity
    ensures LedgerStep(s, r, risk)
  {
  }


  lemma CloseLedger(s: RunState, risk: Risk, exitTime: int, exitPrice: real)
    requires s.position.Some? && s.position.value.entryPrice != 0.0
    ensures LedgerStep(s, AfterClose(s, risk, exitTime, exitPrice), risk)
  {
    var r := AfterClose(s, risk, exitTime, exitPrice);
    assert r.trades[..|s.trades|] == s.trades;
  }

  /** The position state machine of one bar. Only a `Buy` while flat opens a position, always
      long, at the slipped open of the bar; the stop is checked before a signal exit; a bar that
      closes a trade ends flat (it never reopens); otherwise an open position stays as it was. */
  lemma BarPosition(s: RunState, strategy: Strategy, series: map<string, seq<real>>, candles: seq<Candle>, i: nat)
    requires 1 <= i < |candles| && MarketOk(candles, strategy.risk) && Reachable(s)
    ensures var r := AfterBar(s, strategy, series, candles, i);
            var c, risk := candles[i], strategy.risk;
            var signal := SignalAt(strategy, series, c, i);
            && (s.position.None? ==>
                  && r.trades == s.trades
                  && (r.position.Some? <==> signal == Buy)
                  && (r.position.Some? ==> r.position.value == Position(EntryFill(Long, risk, c.open), Long, c.timestamp)))
            && (s.position.Some? && StopHit(s.position.value, risk, c) ==>
                  && r.position.None?
                  && r.trades == s.trades + [Settle(s.position.value, risk, c.timestamp, StopPrice(s.position.value, risk))])
            && (s.position.Some? && !StopHit(s.position.value, risk, c) && signal == Sell ==>
                  && r.position.None?
                  && r.trades == s.trades + [Settle(s.position.value, risk, c.timestamp, c.open)])
            && (s.position.Some? && !StopHit(s.position.value, risk, c) && signal != Sell ==>
                  r.trades == s.trades && r.position == s.position)
  {
  }

  /** The equity curve has one point per candle, stamped with that candle's time, the first
      being the initial equity and the last the current equity. */
  ghost predicate CurveShaped(s: RunState, candles: seq<Candle>, n: nat)
    requires 1 <= n <= |candles|
  {
    && |s.equityCurve| == n
    && s.equityCurve[0].value == InitialEquity
    && s.equityCurve[n - 1].value == s.equity
    && forall k :: 0 <= k < n ==> s.equityCurve[k].time == candles[k].timestamp
  }

  lemma CurveStep(s: RunState, r: RunState, candles: seq<Candle>, n: nat)
    requires 1 <= n < |candles| && CurveShaped(s, candles, n)
    requires r.equityCurve == s.equityCurve + [EquityPoint(candles[n].timestamp, r.equity)]
    ensures CurveShaped(r, candles, n + 1)
  {
  }

  lemma {:induction false} CurveShape(strategy: Strategy, candles: seq<Candle>, series: map<string, seq<real>>, n: nat)
    requires 1 <= n <= |candles| && MarketOk(candles, strategy.risk)
    ensures var s := StateAfter(strategy, candles, series, n);
            && |s.equityCurve| == n
            && s.equityCurve[0].value == InitialEquity
            && s.equityCurve[n - 1].value == s.equity
            && forall k :: 0 <= k < n ==> s.equityCurve[k].time == candles[k].timestamp
  {
    if n > 1 {
      CurveShape(strategy, candles, series, n - 1);
      var prev := StateAfter(strategy, candles, series, n - 1);
      var r := AfterBar(prev, strategy, series, candles, n - 1);
      assert StateAfter(strategy, candles, series, n) == r;
      assert CurveShaped(prev, candles, n - 1);
      BarRecords(prev, strategy, series, candles, n - 1);
      CurveStep(prev, r, candles, n - 1);
      assert CurveShaped(r, candles, n);
    } else {
      assert CurveShaped(Initial(candles[0]), candles, 1);
    }
  }


  /** The incremental peak and maximum drawdown are those of the equity curve. */
  lemma {:induction false} DrawdownOfCurve(strategy: Strategy, candles: seq<Candle>, series: map<string, seq<real>>, n: nat)
    requires 1 <= n <= |candles| && MarketOk(candles, strategy.risk)
    ensures var s := StateAfter(strategy, candles, series, n);
            var vs := Values(s.equityCurve);
            && |vs| > 0 && vs[0] == InitialEquity
            && s.peakEquity == Drawdown.Peak(vs)
            && s.maxDrawdown == Drawdown.MaxDrawdown(vs)
  {
    CurveShape(strategy, candles, series, n);
    if n > 1 {
      var prev := StateAfter(strategy, candles, series, n - 1);
      DrawdownOfCurve(strategy, candles, series, n - 1);
      BarRecords(prev, strategy, series, candles, n - 1);
      DrawdownStep(prev, StateAfter(strategy, candles, series, n), candles[n - 1].timestamp);
    }
  }

  lemma DrawdownStep(prev: RunState, s: RunState, time: int)
    requires |prev.equityCurve| > 0 && prev.equityCurve[0].value == InitialEquity
    requires prev.peakEquity == Drawdown.Peak(Values(prev.equityCurve))
    requires prev.maxDrawdown == Drawdown.MaxDrawdown(Values(prev.equityCurve))
    requires s.equityCurve == prev.equityCurve + [EquityPoint(time, s.equity)]
    requires s.peakEquity == Drawdown.StepPeak(prev.peakEquity, s.equity)
    requires s.peakEquity != 0.0
    requires s.maxDrawdown == Drawdown.StepDrawdown(prev.maxDrawdown, s.peakEquity, s.equity)
    ensures var vs := Values(s.equityCurve);
            && |vs| > 0 && vs[0] == InitialEquity
            && s.peakEquity == Drawdown.Peak(vs)
            && s.maxDrawdown == Drawdown.MaxDrawdown(vs)
  {
    var vs := Values(prev.equityCurve);
    assert Values(s.equityCurve) == vs + [s.equity];
    Drawdown.PeakAppend(vs, s.equity);
    Drawdown.DrawdownAppend(vs, s.equity);
  }

  /** The equity is the initial equity grown by the closed trades alone. */
  lemma {:induction false} EquityCompounds(strategy: Strategy, candles: seq<Candle>, series: map<string, seq<real>>, n: nat)
    requires 1 <= n <= |candles| && MarketOk(candles, strategy.risk)
    ensures var s := StateAfter(strategy, candles, series, n);
            s.equity == InitialEquity * SizedGrowth(s.trades, strategy.risk)
  {
    if n > 1 {
      var prev := StateAfter(strategy, candles, series, n - 1);
      EquityCompounds(strategy, candles, series, n - 1);
      var r := AfterBar(prev, strategy, series, candles, n - 1);
      assert StateAfter(strategy, candles, series, n) == r;
      BarLedger(prev, strategy, series, candles, n - 1);
      GrowthStep(prev, r, strategy.risk);
    }
  }

  lemma GrowthStep(prev: RunState, s: RunState, risk: Risk)
    requires prev.equity == InitialEquity * SizedGrowth(prev.trades, risk)
    requires LedgerStep(prev, s, risk)
    ensures s.equity == InitialEquity * SizedGrowth(s.trades, risk)
  {
    if |s.trades| == |prev.trades| {
      assert s.trades == prev.trades;
    } else {
      assert s.trades[..|s.trades| - 1] == prev.trades;
    }
  }

  /** Without a `Buy` signal on any bar, nothing is ever opened or traded. */
  lemma {:induction false} NoBuyNoTrades(strategy: Strategy, candles: seq<Candle>, series: map<string, seq<real>>, n: nat)
    requires 1 <= n <= |candles| && MarketOk(candles, strategy.risk)
    requires forall k :: 1 <= k < n ==> SignalAt(strategy, series, candles[k], k) != Buy
    ensures var s := StateAfter(strategy, candles, series, n);
            s.trades == [] && s.position == None && s.equity == InitialEquity
  {
    if n > 1 {
      NoBuyNoTrades(strategy, candles, series, n - 1);
      BarPosition(StateAfter(strategy, candles, series, n - 1), strategy, series, candles, n - 1);
    }
  }

  /** The result of runBacktest: one equity point per candle; drawdown is the curve's maximum
      drawdown and is never negative (at most 1 while equity stays non-negative); net profit is
      the last equity point less 10000, which is 10000 times the growth of the closed trades
      less 10000 (a position still open after the last bar is not counted); every trade is long. */
  lemma BacktestResultFacts(strategy: Strategy, candles: seq<Candle>, ind: Indicators)
    requires |candles| >= 1 && MarketOk(candles, strategy.risk)
    ensures var r := Backtest.Backtest(strategy, candles, ind);
            && |r.equityCurve| == |candles|
            && (forall k :: 0 <= k < |candles| ==> r.equityCurve[k].time == candles[k].timestamp)
            && r.equityCurve[0].value == InitialEquity
            && r.metrics.maxDrawdown == Drawdown.MaxDrawdown(Values(r.equityCurve))
            && r.metrics.maxDrawdown >= 0.0
            && ((forall k :: 0 <= k < |r.equityCurve| ==> r.equityCurve[k].value >= 0.0) ==> r.metrics.maxDrawdown <= 1.0)
            && r.metrics.netProfit == r.equityCurve[|candles| - 1].value - InitialEquity
            && r.metrics.netProfit == InitialEquity * SizedGrowth(r.trades, strategy.risk) - InitialEquity
            && r.metrics.totalTrades == |r.trades|
            && (forall k :: 0 <= k < |r.trades| ==> r.trades[k].side == Long)
  {
    var series := IndicatorSeries(strategy, candles, ind);
    var n := |candles|;
    CurveShape(strategy, candles, series, n);
    DrawdownOfCurve(strategy, candles, series, n);
    EquityCompounds(strategy, candles, series, n);
    var s := StateAfter(strategy, candles, series, n);
    var vs := Values(s.equityCurve);
    Drawdown.MaxDrawdownBounds(vs);
    if forall k :: 0 <= k < |vs| ==> vs[k] >= 0.0 {
      Drawdown.MaxDrawdownAtMostOne(vs);
    }
  }

  /** With no slippage and no fee a trade books exactly the price move. */
  lemma FrictionlessSettle(pos: Position, risk: Risk, exitTime: int, exitPrice: real)
    requires pos.entryPrice != 0.0 && risk.slippagePercent == 0.0 && risk.feePercent == 0.0
    ensures Settle(pos, risk, exitTime, exitPrice).exitPrice == exitPrice
    ensures Settle(pos, risk, exitTime, exitPrice).pnl == (exitPrice - pos.entryPrice) * Direction(pos.side)
  {
  }

  /** Slippage and fees only ever cost the trader: the booked pnl is at most the price move. */
  lemma FrictionCostsTrader(pos: Position, risk: Risk, exitTime: int, exitPrice: real)
    requires pos.entryPrice > 0.0 && exitPrice >= 0.0
    requires 0.0 <= risk.slippagePercent <= 100.0 && risk.feePercent >= 0.0
    ensures Settle(pos, risk, exitTime, exitPrice).pnl <= (exitPrice - pos.entryPrice) * Direction(pos.side)
  {
    var q := risk.slippagePercent / 100.0;
    var slip := exitPrice * q;
    assert 0.0 <= q <= 1.0;
    assert exitPrice * (1.0 - q) >= 0.0;
    assert exitPrice * (1.0 - q) == exitPrice - slip;
    var fin := ExitFill(pos.side, risk, exitPrice);
    assert slip >= 0.0;
    assert (fin - pos.entryPrice) * Direction(pos.side) == (exitPrice - pos.entryPrice) * Direction(pos.side) - slip;
    assert slip <= exitPrice;
    assert fin >= 0.0;
    assert (pos.entryPrice + fin) * (risk.feePercent / 100.0) >= 0.0;
  }

  /** Entry fills are also adverse: a long pays at least the open. */
  lemma EntryIsAdverse(risk: Risk, price: real)
    requires price >= 0.0 && risk.slippagePercent >= 0.0
    ensures EntryFill(Long, risk, price) >= price
    ensures EntryFill(Short, risk, price) <= price
  {
    assert price * (risk.slippagePercent / 100.0) >= 0.0;
  }

  /** The stop exit of a long position lies `stopLossPercent` below its entry. */
  lemma StopBelowLongEntry(pos: Position, risk: Risk)
    requires pos.side == Long && pos.entryPrice > 0.0 && risk.stopLossPercent >= 0.0
    ensures StopPrice(pos, risk) <= pos.entryPrice
    ensures StopPrice(pos, risk) == pos.entryPrice * (1.0 - risk.stopLossPercent / 100.0)
  {
    assert pos.entryPrice * (risk.stopLossPercent / 100.0) >= 0.0;
  }
}
