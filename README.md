# Aurora Trade Studio: backtest engine and council rules in Dafny

This project models the deterministic core of Aurora Trade Studio and proves properties of the
model:

- The backtest engine of `src/lib/trading.ts`:
  - `runBacktest` runs a bar-by-bar long-only state machine. It has SMA-cross and RSI-filter
    signals, a stop loss, slippage and fees, compounding equity, an equity curve with its peak
    and maximum drawdown, and ledger metrics.
  - `runMonteCarlo` does bootstrap resampling of the trade ledger.
  - `optimizeParams` is a grid search over parameter ranges.
  - `parseCsvData` reads candles from CSV text.
- Three rules from `worker/chat.ts`, given the network results as inputs:
  - the AI-council vote adjustment, tally, consensus and threshold;
  - merging streamed tool-call deltas;
  - the conversation window sent with each chat request.

Numbers are exact `real`s. `Infinity` is a datatype case (`ExtReal`), and JavaScript's `>` on such
numbers is `Greater`. Code that runs by updating state stays imperative:

- The closures of `runBacktest` mutate the state they capture. That state is the class
  `Backtest.Backtester`, whose methods are proved against pure transition functions.
  `Backtest.RunBacktest` is proved equal to the fold `Backtest.Backtest`.
- The loops of `runMonteCarlo`, `optimizeParams` and the chat rules are `method`s. Each has loop
  invariants and is proved equal to a specification function. The function's properties are
  proved as lemmas.

Modules, one file each:

- `Wrappers`: Option and Result.
- `Numbers`: `Math.min` and `Math.max`.
- `TradingTypes`: the records.
- `Signals`: the signal of one bar.
- `Drawdown`: peak and maximum drawdown of a path.
- `LedgerMetrics`: the ledger metrics.
- `Backtest`: the state machine and `RunBacktest`.
- `BacktestProperties`: what a backtest promises.
- `Sorting`: the ascending sort.
- `MonteCarlo`.
- `Optimizer`.
- `Csv`.
- `Council`.
- `ToolCalls`.
- `Conversation`.

## Model

| member | source | states |
|---|---|---|
| TradingTypes.Closes | src/lib/trading.ts:58 | the close prices, one per candle, in candle order |
| Signals.Lookup | src/lib/trading.ts:96-100 | an indicator read is present exactly when the period is known, `i - period - offset` is an integer index inside the series, and the stored value is not 0 (JavaScript truthiness); a present value is the non-zero value stored at that index |
| Signals.SmaCrossSignal | src/lib/trading.ts:95-103 | SMA cross signals only when both periods are known and bar i is at least period + 1 bars into each series |
| Signals.RsiFilterSignal | src/lib/trading.ts:104-110 | the RSI filter signals only when both periods are known and bar i is at least one period into each series; `buy` needs `rsiLower` and `sell` needs `rsiUpper` |
| Signals.IndicatorSeries | src/lib/trading.ts:58-66 | SMA cross computes exactly `smaShort` and `smaLong`, the SMA of the closes over its two periods; the RSI filter computes exactly `rsi` and `sma` over its own periods |
| Signals.SignalAt | src/lib/trading.ts:94-111 | a bar signals only when the strategy's period parameters are present, and an RSI `buy` or `sell` only when its bound is present |
| Signals.SmaCrossRule | src/lib/trading.ts:95-103 | SMA cross gives `buy` iff all four values are present, prevShort ≤ prevLong and short > long; it gives `sell` iff they are present, prevShort ≥ prevLong and short < long |
| Signals.RsiFilterRule | src/lib/trading.ts:104-110 | RSI filter gives `buy` iff rsi and sma are present, close > sma and rsi < rsiLower; it gives `sell` iff they are present, close < sma and rsi > rsiUpper |
| Signals.MissingPeriodGivesNoSignal | src/lib/trading.ts:96-99 | a strategy without one of its period parameters never signals |
| Signals.WarmUpGivesNoSignal | src/lib/trading.ts:96-100 | before `period + 1` bars, SMA cross gives no signal |
| Signals.ZeroValueIsMissing | src/lib/trading.ts:100 | an indicator value of 0 reads as missing |
| Backtest.Settle | src/lib/trading.ts:69-84 | the recorded trade keeps the entry, takes the slipped exit fill, and has netPnl = (exit − entry)·dir − (entry + exit)·fee/100 and pnlPercent·entry = netPnl |
| Backtest.AfterClose | src/lib/trading.ts:67-86 | flat: nothing changes. Open: the settled trade is appended, equity is multiplied by 1 + size/100·pnlPercent, the position goes flat, and the curve, peak and drawdown are unchanged |
| Backtest.AfterOpen | src/lib/trading.ts:87-91 | only the position changes: it opens on the given side and time at price·(1 ± slippage/100), slipped against the trader |
| Backtest.WorstReturn | src/lib/trading.ts:113-115 | the return at the bar's worst price times the entry is low − entry for a long and entry − high for a short |
| Backtest.StopHit | src/lib/trading.ts:116 | for a positive entry, a long's stop is hit iff the low is below the stop price, a short's iff the high is above it |
| Backtest.ReturnBelowStop | src/lib/trading.ts:116 | for a positive entry, the return test against −stopLoss % is the price test against −stopLoss % of the entry |
| Backtest.StopPrice | src/lib/trading.ts:117 | the stop lies stopLoss % of the entry below it for a long and above it for a short |
| Backtest.AfterSignal | src/lib/trading.ts:112-128 | the curve, peak and drawdown are untouched. Flat: ledger and equity stay, and a position opens iff the signal is `buy`. Open: it closes iff the stop is hit or the signal is against it, appending one trade and keeping the earlier ones; otherwise nothing changes |
| Backtest.AfterRecord | src/lib/trading.ts:129-132 | only the curve, peak and drawdown change: one point with the current equity is appended, the peak becomes at least the old peak and the equity and is one of them, and the drawdown becomes at least the old one and the current drawdown |
| Backtest.AfterBar | src/lib/trading.ts:93-132 | one bar keeps the reachable-state invariant: positive peak, and only long positions opened, at a positive price |
| Backtest.StateAfter | src/lib/trading.ts:51-57 | the loop state after each prefix of bars is reachable |
| Backtest.Backtest | src/lib/trading.ts:50-145 | the result carries the strategy's indicator series and a long-only ledger; totalTrades is its length, netProfit + 10000 the final equity of the fold and the drawdown metric its final maximum drawdown |
| Backtest.Backtester.constructor | src/lib/trading.ts:51-57 | the captured state starts at equity 10000, flat, no trades, one equity point for bar 0, peak 10000, drawdown 0 |
| Backtest.Backtester.ClosePosition | src/lib/trading.ts:67-86 | `closePosition` does nothing when flat; otherwise it appends the settled trade, compounds equity and goes flat |
| Backtest.Backtester.OpenPosition | src/lib/trading.ts:87-91 | `openPosition` opens at the slipped entry fill |
| Backtest.Backtester.ApplySignal | src/lib/trading.ts:112-128 | the position step of a bar, equal to the transition function `AfterSignal` |
| Backtest.Backtester.Record | src/lib/trading.ts:129-132 | one equity point is appended, then the peak and the drawdown are stepped |
| Backtest.Backtester.ProcessBar | src/lib/trading.ts:93-132 | one loop iteration, equal to the transition function `AfterBar` |
| Backtest.RunBacktest | src/lib/trading.ts:50-145 | `runBacktest` returns exactly the fold `Backtest` of the bar transitions |
| BacktestProperties.BarRecords | src/lib/trading.ts:129-132 | each bar appends one point holding the equity after the bar, and applies the incremental peak and drawdown rule to it |
| BacktestProperties.BarMonotone | src/lib/trading.ts:130-132 | the peak and the maximum drawdown never decrease from bar to bar |
| BacktestProperties.LedgerKeeps | src/lib/trading.ts:129-132 | recording a bar leaves the ledger step as it was |
| BacktestProperties.CloseLedger | src/lib/trading.ts:67-86 | a close appends exactly one trade, keeps the earlier ones, and multiplies equity by 1 + size/100·pnlPercent |
| BacktestProperties.SignalLedger | src/lib/trading.ts:112-128 | the position step closes at most one trade; equity changes only when it does |
| BacktestProperties.BarLedger | src/lib/trading.ts:92-132 | a bar closes at most one trade, keeps the earlier ones, and moves equity only by the closed trade's return |
| BacktestProperties.BarPosition | src/lib/trading.ts:112-128 | when flat, a position opens iff the signal is `buy`, always long, at the slipped open. When open, a stop is checked first and closes at the stop price; otherwise `sell` closes at the open. A bar that closes never reopens. Otherwise the position and the ledger are unchanged |
| BacktestProperties.CurveStep | src/lib/trading.ts:129 | one appended point keeps the curve's shape |
| BacktestProperties.CurveShape | src/lib/trading.ts:53-129 | the curve has one point per candle, stamped with that candle's time; the first point is 10000 and the last is the current equity |
| BacktestProperties.DrawdownStep | src/lib/trading.ts:130-132 | one incremental step keeps the peak and drawdown equal to those of the curve |
| BacktestProperties.DrawdownOfCurve | src/lib/trading.ts:56-132 | the running peak and maximum drawdown are the peak and maximum drawdown of the equity curve |
| BacktestProperties.GrowthStep | src/lib/trading.ts:75 | a ledger step keeps equity = 10000·growth of the ledger |
| BacktestProperties.EquityCompounds | src/lib/trading.ts:75 | equity is 10000 times the product of 1 + size/100·pnlPercent over the closed trades |
| BacktestProperties.NoBuyNoTrades | src/lib/trading.ts:125-127 | without a `buy` signal nothing is opened or traded, and equity stays 10000 |
| BacktestProperties.BacktestResultFacts | src/lib/trading.ts:134-144 | see the list after this table |
| BacktestProperties.FrictionlessSettle | src/lib/trading.ts:69-73 | without slippage and fee the pnl is the price move |
| BacktestProperties.FrictionCostsTrader | src/lib/trading.ts:69-73 | slippage and fees only lower the pnl |
| BacktestProperties.EntryIsAdverse | src/lib/trading.ts:88-89 | a long pays at least the open and a short receives at most the open |
| BacktestProperties.StopBelowLongEntry | src/lib/trading.ts:117 | a long's stop price is entry·(1 − sl/100), at or below the entry |
| Drawdown.PeakIsGreatest | src/lib/trading.ts:130 | the peak is a value of the path and at least every value |
| Drawdown.PeakPositive | src/lib/trading.ts:130 | a path seeded positive has a positive peak |
| Drawdown.PeakAppend | src/lib/trading.ts:130 | the incremental peak rule computes the peak of the extended path |
| Drawdown.DrawdownAppend | src/lib/trading.ts:131-132 | the incremental drawdown rule computes the maximum drawdown of the extended path |
| Drawdown.StepPeak | src/lib/trading.ts:130 | the new peak is the larger of the old peak and the value |
| Drawdown.StepDrawdown | src/lib/trading.ts:131-132 | the new maximum is the larger of the old maximum and this step's drawdown |
| Drawdown.MaxDrawdownBounds | src/lib/trading.ts:131-132 | the maximum drawdown is ≥ 0, never decreases as the path grows, and is at least the drawdown of every step below the peak so far |
| Drawdown.MaxDrawdownAttained | src/lib/trading.ts:131-132 | the maximum drawdown is the drawdown of some step, so it is exactly the largest step drawdown |
| Drawdown.QuotientAtMostOne | src/lib/trading.ts:131 | one drawdown with a non-negative value is at most 1 |
| Drawdown.MaxDrawdownAtMostOne | src/lib/trading.ts:131-132 | on a non-negative path the maximum drawdown is at most 1 |
| LedgerMetrics.Wins | src/lib/trading.ts:134 | there are no more winning trades than trades |
| LedgerMetrics.WinRate | src/lib/trading.ts:139 | winRate lies in [0, 1], is 0 without trades, and winRate times the number of trades = the number of winning trades |
| LedgerMetrics.ProfitFactor | src/lib/trading.ts:135-141 | profitFactor is Infinity iff no trade lost (also with no trades); otherwise it is ≥ 0 with profitFactor·grossLoss = grossProfit; it is never −Infinity |
| LedgerMetrics.ComputeMetrics | src/lib/trading.ts:134-143 | totalTrades is the number of trades; netProfit = equity − 10000; the drawdown is passed through; winRate and profitFactor are as above |
| LedgerMetrics.LedgerSigns | src/lib/trading.ts:135-136 | gross profit ≥ 0; loss sum ≤ 0, and = 0 iff no trade lost money |
| LedgerMetrics.SumsOfConcat | src/lib/trading.ts:134-136 | wins, gross profit and loss sum split over concatenated ledgers |
| LedgerMetrics.ProfitMinusLoss | src/lib/trading.ts:135-136 | gross profit plus loss sum is the total pnl |
| Sorting.InsertPermutes | src/lib/trading.ts:168 | insertion adds exactly the inserted value |
| Sorting.SortedCons | src/lib/trading.ts:168 | a value no larger than a sorted sequence can go in front of it |
| Sorting.InsertSorted | src/lib/trading.ts:168 | insertion keeps a sequence sorted |
| Sorting.SortAscendingCorrect | src/lib/trading.ts:168 | the sort returns an ascending permutation of its input |
| Sorting.SortedPermutationUnique | src/lib/trading.ts:168 | any two ascending permutations are equal, so every correct sort agrees with this one |
| Sorting.MinOfSorted | src/lib/trading.ts:168-169 | the first element of a sorted sequence is its minimum |
| MonteCarlo.Resample | src/lib/trading.ts:156 | run j's drawn trades at position k are `trades[draws[j][k]]` |
| MonteCarlo.PathEnds | src/lib/trading.ts:153-158 | a run starts at 10000 and ends at 10000 times the product of 1 + pnlPercent |
| MonteCarlo.RunPnlFromPath | src/lib/trading.ts:153-163 | a run's pushed pnl is the end of its equity path less its start |
| MonteCarlo.PercentileIndices | src/lib/trading.ts:169-170 | for iterations ≥ 1 both percentile indices are inside the distribution, lower ≤ upper |
| MonteCarlo.MaxFromZeroBounds | src/lib/trading.ts:164 | the running maximum from 0 is ≥ 0, ≥ every value, and is 0 or one of them |
| MonteCarlo.GrowthNonNegative | src/lib/trading.ts:153-158 | no drawn trade losing more than everything keeps equity ≥ 0 |
| MonteCarlo.RunDrawdownBounds | src/lib/trading.ts:155-161 | a run's drawdown is ≥ 0, and ≤ 1 when no trade loses more than everything |
| MonteCarlo.PathStep | src/lib/trading.ts:157-158 | each drawn trade appends the previous equity times 1 + pnlPercent |
| MonteCarlo.TracksStep | src/lib/trading.ts:158-161 | one iteration keeps equity, peak and drawdown equal to those of the run's path |
| MonteCarlo.SimulateRun | src/lib/trading.ts:153-162 | the inner loop ends at 10000·∏(1 + pnlPercent) with the maximum drawdown of the run's path |
| MonteCarlo.SimulateRuns | src/lib/trading.ts:150-165 | the outer loop collects each run's final pnl in run order, and the largest drawdown of any run (from 0) |
| MonteCarlo.TwoTradeScenario | src/lib/trading.ts:153-163 | a worked example: trades of +10 % and −5 %, drawn in order, give 10000·1.1·0.95 − 10000 |
| MonteCarlo.SameElements | src/lib/trading.ts:168 | sorting keeps the values: equal multisets have the same elements |
| MonteCarlo.WorstIsMaximum | src/lib/trading.ts:151-164 | the worst drawdown is ≥ 0 and ≥ every run's drawdown |
| MonteCarlo.RunMonteCarlo | src/lib/trading.ts:146-178 | see the list after this table |
| Optimizer.Row | src/lib/trading.ts:190-192 | one existing combination extended by each value of the key, in value order |
| Optimizer.Expand | src/lib/trading.ts:188-194 | a reduce step multiplies the number of combinations by the number of values |
| Optimizer.ExpandAt | src/lib/trading.ts:189-193 | combinations come out combination-major, value-minor: position i·m + j, for m values, holds combination i with value j |
| Optimizer.ExpandMember | src/lib/trading.ts:189-193 | every new combination is an old one with the key set to one of its values |
| Optimizer.Combos | src/lib/trading.ts:186-195 | the number of combinations is the product of the range sizes |
| Optimizer.ProductZero | src/lib/trading.ts:186-195 | the product is 0 iff some range is empty |
| Optimizer.NoCombosIffEmptyRange | src/lib/trading.ts:186-195 | there are no combinations iff some range is empty; with no keys there is the single empty combination |
| Optimizer.KeysOfSnoc | src/lib/trading.ts:186 | the keys of the ranges grow one key per range |
| Optimizer.ExtendFits | src/lib/trading.ts:191 | setting the next key to one of its values extends a fitting combination |
| Optimizer.CombosFit | src/lib/trading.ts:186-195 | every combination holds exactly the keys of `paramRanges`, each with a value from its own range |
| Optimizer.BuildCombinations | src/lib/trading.ts:187-195 | the nested loops build exactly the reduce's combinations |
| Optimizer.Scores | src/lib/trading.ts:196-199 | one profit factor per combination, from the backtest with that combination as `params` |
| Optimizer.BestSoFar | src/lib/trading.ts:196-203 | the best so far has no index iff its score is still −Infinity, which happens only when every score is −Infinity; an index is inside the scores and holds the best score |
| Optimizer.BestSoFarStep | src/lib/trading.ts:199-202 | one more score becomes the best iff it is strictly greater than the best so far |
| Optimizer.GreaterAsymmetric | src/lib/trading.ts:199 | JavaScript `>` on possibly infinite numbers is asymmetric |
| Optimizer.GreaterAfterAtMost | src/lib/trading.ts:199 | a ≤ b < c gives a < c |
| Optimizer.BestSoFarIsFirstMax | src/lib/trading.ts:184-203 | scanning from −Infinity with strict `>` selects no index iff there are no scores; otherwise it selects the first index of a largest score |
| Optimizer.FirstMaxUnique | src/lib/trading.ts:199-202 | the first largest score is unique |
| Optimizer.ScoresNotNegInf | src/lib/trading.ts:199 | no profit factor is −Infinity, so the first combination is always adopted |
| Optimizer.SelectBest | src/lib/trading.ts:196-203 | the selection loop returns the base strategy when nothing was adopted, and otherwise the base strategy with the params of the selected combination |
| Optimizer.OptimizeParams | src/lib/trading.ts:179-205 | see the list after this table |
| Csv.TrimStart | src/lib/trading.ts:207 | a suffix of the text; everything cut off is white space, and what is left does not start with it |
| Csv.TrimEnd | src/lib/trading.ts:207 | a prefix of the text; everything cut off is white space, and what is left does not end with it |
| Csv.Trim | src/lib/trading.ts:207 | the trimmed text is a slice of the text that neither starts nor ends with white space, and everything cut off on either side is white space |
| Csv.TrimEndOfSuffix | src/lib/trading.ts:207 | trimming the end of a suffix leaves a slice of the text and cuts off only white space |
| Csv.Split | src/lib/trading.ts:207-209 | at least one piece, and no piece contains the separator |
| Csv.IndexOf | src/lib/trading.ts:207-209 | the first occurrence of the separator |
| Csv.SplitJoin | src/lib/trading.ts:207-209 | joining the pieces with the separator gives back the text |
| Csv.SplitFirst | src/lib/trading.ts:207 | a first line without newline comes off as the first piece |
| Csv.ParseRow | src/lib/trading.ts:209-218 | a row gives a candle iff its timestamp and close parse, with the six fields in order and missing fields as NaN |
| Csv.KeepRowsAppend | src/lib/trading.ts:208-218 | rows are kept in order: the candles of two runs of rows are the candles of each |
| Csv.KeepRows | src/lib/trading.ts:208-218 | at most one candle per row |
| Csv.ParseCsv | src/lib/trading.ts:206-219 | fewer candles than lines, and every candle comes from a line after the first whose timestamp and close parse |
| Csv.KeepRowsCount | src/lib/trading.ts:218 | at most one candle per row; all rows parse → one per row; none parses → none |
| Csv.KeptFromRows | src/lib/trading.ts:218 | every candle comes from a row whose timestamp and close parse |
| Csv.HeaderDropped | src/lib/trading.ts:207 | the first line is dropped; there are at most as many candles as lines after it |
| Csv.HeaderOnly | src/lib/trading.ts:207 | a single-line text gives no candle |
| Council.Adjust | worker/chat.ts:131-136 | only the confidence changes. Hold votes, and every vote when −0.5 ≤ buzz ≤ 0.5, are unchanged. Buzz > 0.5 gives min(100, c·1.1); buzz < −0.5 gives max(0, c·0.9) |
| Council.AdjustKeepsRange | worker/chat.ts:133-134 | a confidence in [0, 100] stays there, moving up with bullish buzz and down with bearish |
| Council.AdjustConfidences | worker/chat.ts:131-136 | every vote object is adjusted in place |
| Council.Count | worker/chat.ts:139-142 | a label's count is at most the number of votes |
| Council.CountIgnoresConfidence | worker/chat.ts:131-142 | adjusting confidences leaves the counts unchanged |
| Council.CountsAtMostVotes | worker/chat.ts:137-144 | the three counts sum to at most the number of votes, with equality iff every vote is buy, sell or hold |
| Council.TallyVotes | worker/chat.ts:137-144 | `voteCounts` has exactly the keys buy, sell, hold, each holding its own label's count; other labels are ignored |
| Council.LeaderUnique | worker/chat.ts:145-152 | the consensus is uniquely determined |
| Council.Consensus | worker/chat.ts:145-152 | scanning buy, sell, hold with strict `>`: no count exceeds maxVotes, and the vote is the first label with maxVotes > 0 votes, or `hold` with 0 |
| Council.Majority | worker/chat.ts:153 | majority times the number of votes = maxVotes·100 |
| Council.ThresholdOfFour | worker/chat.ts:153-154 | with four votes the threshold is met iff at least three agree |
| Council.CandleData | worker/chat.ts:92 | a series is used as given; of a timeframe map, the data is empty iff `1h` is missing or empty |
| Council.OtherTimeframesIgnored | worker/chat.ts:92 | timeframes other than `1h` are never read, and a map without `1h` gives no candles |
| Council.CouncilQuery | worker/chat.ts:89-159 | see the list after this table |
| ToolCalls.NatToString | worker/chat.ts:181 | a non-empty digit string, one digit exactly below 10 |
| ToolCalls.NatToStringValue | worker/chat.ts:181 | the digits read back as the number, so different clock readings give different fallback ids |
| ToolCalls.Created | worker/chat.ts:179-188 | a new entry takes the delta's id, or `tool_<now>_<i>` when it has none, plus its name and arguments |
| ToolCalls.Updated | worker/chat.ts:189-195 | a later delta keeps the id, sets the name only while it is empty, and appends its arguments |
| ToolCalls.MergeDeltas | worker/chat.ts:177-196 | a chunk's deltas grow the list to the longer of the two; entry k is updated, created or left as it was, and entries beyond the deltas are unchanged |
| ToolCalls.Content | worker/chat.ts:172-175 | a stream without text gives empty content |
| ToolCalls.Emitted | worker/chat.ts:172-175 | at most one piece per chunk, and no empty piece |
| ToolCalls.Accumulate | worker/chat.ts:176-197 | one call per position any chunk reached |
| ToolCalls.EmittedMakesContent | worker/chat.ts:172-175 | the pieces handed to `onChunk` concatenate to the full content |
| ToolCalls.NothingBeyondWidth | worker/chat.ts:177-196 | a position no chunk has reached has no arguments and no name |
| ToolCalls.AccumulatedCalls | worker/chat.ts:176-197 | after the stream the call at each position any chunk reached has as arguments that position's fragments in arrival order, and as name the first name any of them carried |
| ToolCalls.IdsAreStable | worker/chat.ts:179-195 | an entry keeps the id it was created with, and no entry disappears |
| ToolCalls.MergeChunk | worker/chat.ts:177-196 | the in-place inner loop computes exactly `MergeDeltas` |
| ToolCalls.AccumulateStream | worker/chat.ts:167-197 | the loops compute exactly the full content, the `onChunk` pieces and the accumulated calls |
| Conversation.LastMessages | worker/chat.ts:308 | `slice(-5)` is the last min(5, n) messages of a history of n |
| Conversation.BuildConversationMessages | worker/chat.ts:302-314 | the messages are the system message, then the last min(5, n) of the n history messages in order with only role and content, then the user message; the length is min(5, n) + 2 |
| Conversation.OlderHistoryIgnored | worker/chat.ts:308 | messages older than the last five have no influence |
| Conversation.ShortHistoryKept | worker/chat.ts:308-311 | with at most five messages, the whole history is sent in order |

What `BacktestProperties.BacktestResultFacts` states about the result of a backtest:

- There is one equity point per candle.
- The drawdown metric is the curve's maximum drawdown. It is ≥ 0, and ≤ 1 while the curve stays non-negative.
- netProfit equals the last equity point minus 10000. That is 10000 times the growth of the closed trades, minus 10000. A position still open after the last bar is not counted.
- totalTrades is the number of trades.
- Every trade is long.

What `MonteCarlo.RunMonteCarlo` states:

- An empty ledger gives the all-zero result.
- Otherwise the distribution has `iterations` values. It is sorted, and it is a permutation of the runs' final pnls, each 10000·∏(1 + pnlPercent) − 10000.
- The mean is the sum divided by `iterations`. The variance is the mean squared deviation.
- The worst drawdown is ≥ 0 and ≥ every run's drawdown.
- The interval is the pair of distribution values at floor(n·0.025) and floor(n·0.975). Both are values of the distribution, and lower ≤ upper.

What `Optimizer.OptimizeParams` states:

- The result keeps the base strategy's type and risk.
- When there is no combination, the result is the base strategy.
- Otherwise the result is the base strategy with `params` replaced wholesale by the combination with the first largest profit factor.

What `Council.CouncilQuery` states:

- When no NIM client is configured, the query fails before voting.
- When the candle series is empty, the query fails.
- Otherwise:
  - the four votes are the adjusted replies;
  - the consensus is the leader of the replies' counts;
  - majority equals maxVotes/4·100;
  - `thresholdMet` holds iff majority ≥ 75.

## Left out

- Floating point: all arithmetic is exact, so IEEE rounding, overflow and NaN are not modelled. NaN appears only where the source tests for it, `isNaN` in `parseCsvData`, which the model writes as `None`. `Infinity` is modelled only for `profitFactor` and the optimizer's start value.
- Backtest.RunBacktest: requires at least one candle. The source indexes `candles[0]` and fails on an empty series.
- Backtest.RunBacktest: also requires positive opening prices and slippage above −100 %, through `MarketOk`. The source divides by the entry price without checking it, and these conditions keep every entry price positive. The peak equity it also divides by needs no condition: it starts at 10000 and never decreases.
- The Short branches of the state machine are modelled but unreachable, since only longs are ever opened. `Reachable` states this.
- The `technicalindicators` library (`SMA.calculate`, `RSI.calculate`) is foreign. Its series are the input functions of `Indicators`.
- `toLocaleDateString` in the equity curve is foreign formatting. The model stores the bar's timestamp instead of the formatted date.
- MonteCarlo.RunMonteCarlo: `stdDev` is `Math.sqrt` of the variance. The model returns the variance, since square roots are not modelled.
- MonteCarlo.RunMonteCarlo: requires `iterations ≥ 1` when the ledger is non-empty. The source then divides by zero and reads indices past the end, producing NaN and `undefined`.
- MonteCarlo.RunMonteCarlo: the percentile indices are computed in exact arithmetic. Floating-point `iterations * 0.025` may round differently at exact multiples.
- `Math.random` is an oracle `draws` with one index below `trades.length` per drawn trade.
- `pnlDistribution.sort` is the engine's. The model uses a functional insertion sort and proves that every ascending sort gives the same result (`Sorting.SortedPermutationUnique`). The in-place sort itself is not modelled.
- `confidenceInterval` holds the distribution values at floor(n·0.025) and floor(n·0.975); no value at risk is computed.
- Optimizer.OptimizeParams: `Object.keys` order is taken as given. `paramRanges` is a sequence of (key, values) pairs. Duplicate keys cannot occur in an object; `CombosFit` states this as `DistinctKeys`, and nothing else needs it.
- `new Date(text).getTime()` and `parseFloat` in `parseCsvData` are foreign parsers. They are inputs (`Csv.Parsers`) that answer `None` for NaN.
- Council.CouncilQuery: the replies are an input of exactly four votes, one per role (lines 95-128). Requests that fail become `hold` votes in the source. Obtaining the replies is network I/O under `Promise.all`.
- Council.CouncilQuery: the buzz score is an input. Extracting it is a regular-expression match on the sentiment summary. The prompts, the JSON parsing of replies (which may override `model` and `role`) and the debate transcript text are not modelled.
- Council.CouncilQuery: an empty series is modelled as a failure. The source fails there reading `undefined.timestamp`; `toISOString` on an invalid date also fails, and is not modelled.
- ToolCalls.AccumulateStream: the stream is a sequence of chunks, because the stream itself is network I/O. `Date.now()` is one clock reading per chunk. The try/catch around the loop, the `onChunk` callback (modelled as the sequence of texts it receives) and the later tool execution are not modelled.
- `updateModel`, the client setup and the follow-up completion in `worker/chat.ts` are network plumbing and not modelled.
