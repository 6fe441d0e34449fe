/** The reduction of a trade ledger to BacktestMetrics (src/lib/trading.ts:134-143). */
module LedgerMetrics {
  import opened TradingTypes

  /** `trades.filter(t => t.pnl > 0).length` */
  function Wins(trades: seq<Trade>): (n: nat)
    ensures n <= |trades|
  {
    if |trades| == 0 then 0 else (if trades[0].pnl > 0.0 then 1 else 0) + Wins(trades[1..])
  }

  /** The sum of the winning trades' pnl. */
  function GrossProfit(trades: seq<Trade>): real
  {
    if |trades| == 0 then 0.0 else (if trades[0].pnl > 0.0 then trades[0].pnl else 0.0) + GrossProfit(trades[1..])
  }

  /** The sum of the pnl of the trades with `pnl <= 0`; `Math.abs` of it is the gross loss. */
  function LossSum(trades: seq<Trade>): real
  {
    if |trades| == 0 then 0.0 else (if trades[0].pnl <= 0.0 then trades[0].pnl else 0.0) + LossSum(trades[1..])
  }

  function Abs(x: real): real { if x < 0.0 then -x else x }

  function GrossLoss(trades: seq<Trade>): real { Abs(LossSum(trades)) }

  /** `winningTrades / trades.length`, or 0 without trades: the share of winning trades. */
  function WinRate(trades: seq<Trade>): (wr: real)
    ensures 0.0 <= wr <= 1.0
    ensures |trades| == 0 ==> wr == 0.0
    ensures |trades| > 0 ==> wr * |trades| as real == Wins(trades) as real
  {
    if |trades| > 0 then Wins(trades) as real / |trades| as real else 0.0
  }

  /** Gross profit over gross loss; `Infinity` when nothing was lost. */
  function ProfitFactor(trades: seq<Trade>): (pf: ExtReal)
    ensures pf.PosInf? <==> forall k :: 0 <= k < |trades| ==> trades[k].pnl >= 0.0
    ensures pf.Finite? ==> pf.value >= 0.0 && pf.value * GrossLoss(trades) == GrossProfit(trades)
    ensures !pf.NegInf?
  {
    LedgerSigns(trades);
    var gl := GrossLoss(trades);
    if gl > 0.0 then Finite(GrossProfit(trades) / gl) else PosInf
  }

  function ComputeMetrics(trades: seq<Trade>, equity: real, maxDrawdown: real): (m: Metrics)
    ensures m.totalTrades == |trades|
    ensures m.netProfit == equity - InitialEquity
    ensures m.maxDrawdown == maxDrawdown
    ensures 0.0 <= m.winRate <= 1.0
    ensures |trades| == 0 ==> m.winRate == 0.0
    ensures |trades| > 0 ==> m.winRate * |trades| as real == Wins(trades) as real
    ensures m.profitFactor.PosInf? <==> forall k :: 0 <= k < |trades| ==> trades[k].pnl >= 0.0
    ensures m.profitFactor.Finite? ==> m.profitFactor.value >= 0.0
                                       && m.profitFactor.value * GrossLoss(trades) == GrossProfit(trades)
    ensures !m.profitFactor.NegInf?
  {
    Metrics(equity - InitialEquity, WinRate(trades), |trades|, ProfitFactor(trades), maxDrawdown)
  }

  /** Gross profit is never negative, the loss sum never positive, and the loss sum is zero
      exactly when no trade lost money. */
  lemma {:induction false} LedgerSigns(trades: seq<Trade>)
    ensures GrossProfit(trades) >= 0.0
    ensures LossSum(trades) <= 0.0
    ensures LossSum(trades) == 0.0 <==> forall k :: 0 <= k < |trades| ==> trades[k].pnl >= 0.0
  {
    if |trades| > 0 {
      LedgerSigns(trades[1..]);
      assert forall k :: 1 <= k < |trades| ==> trades[k] == trades[1..][k - 1];
    }
  }

  /** The ledger's sums split over concatenation, so the metrics do not depend on how the
      ledger was accumulated. */
  lemma {:induction false} SumsOfConcat(a: seq<Trade>, b: seq<Trade>)
    ensures Wins(a + b) == Wins(a) + Wins(b)
    ensures GrossProfit(a + b) == GrossProfit(a) + GrossProfit(b)
    ensures LossSum(a + b) == LossSum(a) + LossSum(b)
  {
    if |a| > 0 {
      assert (a + b)[1..] == a[1..] + b;
      SumsOfConcat(a[1..], b);
    } else {
      assert a + b == b;
    }
  }

  /** Every trade's pnl is a win or counts towards the loss: the net of the two sums is the
      ledger's total pnl. */
  lemma {:induction false} ProfitMinusLoss(trades: seq<Trade>)
    ensures GrossProfit(trades) + LossSum(trades) == TotalPnl(trades)
  {
    if |trades| > 0 { ProfitMinusLoss(trades[1..]); }
  }

  function TotalPnl(trades: seq<Trade>): real
  {
    if |trades| == 0 then 0.0 else trades[0].pnl + TotalPnl(trades[1..])
  }
}
