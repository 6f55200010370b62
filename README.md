# A verified model of the crypto-algo-trader core

This project models the deterministic core of a Python crypto trading bot in Dafny, and proves properties of that model. The core covers:

- **Order sizing and PnL** (`OrderUtils`): the quantity bought with a USDT budget, including the spot-SELL fee shrink, precision rounding and the minimum-notional bump-up. Also the fee-aware profit of a closed trade and order validation.
- **The live position tracker** (`PositionTracker`): opening positions, and one polling loop that closes a position on TARGET, STOPLOSS or TIME EXIT.
- **The adaptive stop/target manager** (`TradeManager`): price histories, average true range, the volatility-based stop distance, moving levels with a trailing activation, and the exit check.
- **Risk and backtest helpers** (`TradeUtils`): position size, Kelly fraction, risk of ruin, funding cost, maximum drawdown, and the balance loop of a signal backtest.
- **The candle builder** (`CandleStore`): minute buckets of ticks, with a bounded deque of closed candles.
- **The signal generators**:
  - candlestick patterns (`CandlestickPatterns`);
  - chart patterns over swing points (`ChartPatterns`);
  - MACD (`MacdStrategy`);
  - RSI (`RsiStrategy`);
  - momentum (`MomentumStrategy`);
  - price action (`PriceActionStrategy`);
  - the one-candle breakout (`BreakoutStrategy`);
  - the combined strategy's trend vote, filters, confidence gate and weighted vote (`CombinedStrategy`).
- **Utility control logic**:
  - the `retry_on_error` decorator, the order log and the order-book imbalance (`BaseManager`);
  - the parameter grid and the signal flattening of the strategy tester (`AdvancedStrategyTester`);
  - the best-parameter selection of the strategy analyzer (`StrategyAnalyzer`).

## Modelling conventions

**Numbers and rounding**
- Prices, volumes and rates are `real`, so float rounding error is not modelled.
- Python's `int(x)` is truncation toward zero (`Common.Trunc`).
- Python's `round(x, n)` is round-half-to-even at the n-th decimal, in exact arithmetic (`Common.RoundHalfEven`).
- A Python division by zero raises, so it becomes a precondition on the divisor.
- A numpy float division by zero does not raise: it yields an infinity or NaN. Where the source depends on that, the model spells it out:
  - `ChartPatterns.RatioExceeds` for the pattern ratios;
  - `Common.NpFloat` (through `Common.NpDiv`) for momentum, the volume trend and the drawdowns.

**Inputs and configuration**
- Configuration constants that the repository imports but does not define are fields of per-module configuration datatypes (`OrderConfig`, `TrackerConfig`, `ManagerConfig`, `CombinedStrategy.Config`).
- The defaults of `core/config.py` appear where that file defines them.
- Values the source obtains from numpy/pandas statistics, clocks, caches or the exchange are parameters of the operations:
  - standard deviations, log returns and annualised volatility;
  - polynomial-fit patterns;
  - the cached last price and the current time;
  - the results of sub-strategies that cannot be called.

**Objects and state**
- Where the source updates an object's fields, the model is a `class` with those fields:
  - `CandleStore.Store`;
  - `PositionTracker.Position` and `PositionTracker.PositionTracker`;
  - `TradeManager.TradeManager`;
  - `RsiStrategy.Strategy`, `MomentumStrategy.Strategy` and `PriceActionStrategy.Strategy`;
  - `CombinedStrategy.Strategy`;
  - `BaseManager.TradeManager`.
- Each method ensures that the new state is a step function of the old state.
- The properties are proved as lemmas about those step functions.
- The state-building loops of the source are `while` loops, proved against a specification function.
- A specification function without its own contract is covered by the rows of the lemmas about it: `TradeManager.LevelsStep` by `TradeManager.ExtremesMoveOneWay`, `TradeManager.TrailingSticky`, `TradeManager.StopRatchet` and `TradeManager.TargetFormula`.

## Model

| member | source | states |
|---|---|---|
| Common.Trunc | trading/order_utils.py:13 | `int(x)` truncates toward zero: for x ≥ 0 the result is the largest integer not above x; for x < 0, the smallest integer not below it |
| Common.RoundHalfEvenError | trading/order_utils.py:16 | `round(x, n)` is within half a unit of the n-th decimal of x |
| Common.RoundHalfEvenRounds | trading/order_utils.py:16 | `round(x, n)` is a multiple of 10^-n at least as close to x as every other multiple, and on a tie it is the one with an even numerator |
| Common.NpDiv | strategy/combined_strategy.py:64 | a float64 division is finite iff the divisor is non-zero, and then it is the quotient; a zero divisor gives +inf, -inf or NaN by the sign of the dividend |
| Common.DequePush | data_feed/candle_store.py:14 | appending to a `deque(maxlen)` gives length min(len+1, maxlen), with the new item last |
| Common.DequePushContents | data_feed/candle_store.py:48 | the deque keeps exactly the newest items: the old suffix followed by the new item, and plain append while not full |
| Common.MeanBounds | strategy/rsi_strategy.py:36-37 | the mean of values within [lo, hi] lies within [lo, hi] |
| BaseManager.RetryOnError | trading/base_manager.py:8-24 | with max_retries ≤ 0 the function is never called and None is returned; otherwise the function is called at most max_retries times, and every attempt before the last raised an API error; the last attempt's success is returned, any other exception propagates at once, and an API error is re-raised only from attempt max_retries |
| BaseManager.Get | trading/base_manager.py:39-47 | `order.get(key)` is present exactly when the key is, with its value |
| BaseManager.EntryOfFields | trading/base_manager.py:38-47 | a logged entry copies orderId, symbol, side, type, origQty, price, status and time field for field; orders that agree on those keys log equal entries |
| BaseManager.TradeManager.LogOrder | trading/base_manager.py:36-48 | exactly one entry is appended when the order is truthy; otherwise the log is unchanged |
| BaseManager.TradeManager.Cleanup | trading/base_manager.py:126-129 | the manager is no longer initialised and the order log is kept |
| BaseManager.Imbalance | trading/base_manager.py:106-117 | 0 when no volume is booked; for non-negative volumes the imbalance lies in [-1, 1], is positive iff more is bid than asked and negative iff less, and is 1 (or -1) iff only bids (or only asks) are present |
| BaseManager.ImbalanceRange | trading/base_manager.py:106-117 | for non-negative volumes the imbalance lies in [-1, 1]; it is positive iff more is bid than asked, negative iff less, 1 iff only bids are present and -1 iff only asks are |
| BreakoutStrategy.BreakoutSignal | strategy/breakout_strategy.py:41-50 | BUY iff close > open, SELL iff close < open, None iff they are equal |
| BreakoutStrategy.BreakoutSignalOpenClose | strategy/breakout_strategy.py:41-50 | two candles with the same open and close get the same signal: nothing else of the candle matters |
| CandleStore.MinuteOf | data_feed/candle_store.py:43 | the bucket key is the start of the tick's minute: a multiple of one minute, at most one minute before the tick |
| CandleStore.MinuteOfBuckets | data_feed/candle_store.py:43-45 | truncating is idempotent, and two ticks share a bucket iff they fall in the same whole minute |
| CandleStore.OpenCandle | data_feed/candle_store.py:53-60 | a freshly opened candle satisfies low ≤ open, close ≤ high |
| CandleStore.UpdateStep | data_feed/candle_store.py:29-67 | a tick from another minute, or the first tick, pushes the current candle (if any) onto the deque as `deque(maxlen=500).append` does (length min(len+1, 500), so exactly the oldest is evicted when full), and opens a candle at the tick price with the tick's volume; a same-minute tick raises the high to the maximum, lowers the low to the minimum, sets the close and adds the volume, leaving open, timestamp and the deque unchanged; every update keeps the store valid (at most 500 closed candles, all well-formed and minute-stamped) |
| CandleStore.LastCandleIsClosed | data_feed/candle_store.py:68-72 | the last candle changes only when a candle is closed, and then it is the candle just closed, never the one in progress |
| CandleStore.Store.constructor | data_feed/candle_store.py:13-27 | the store starts with no candles and no current candle, and is valid |
| CandleStore.Store.UpdateCandle | data_feed/candle_store.py:29-67 | the new store state is the update step of the old one and stays valid, and the candle closed by the tick (if any) is published |
| CandleStore.Store.GetLastCandle | data_feed/candle_store.py:68-72 | returns the newest closed candle, or None exactly when none is closed |
| CandleStore.Store.GetAllCandles | data_feed/candle_store.py:74-76 | returns the closed candles, oldest first |
| CandlestickPatterns.Body | strategy/candlestick_patterns.py:17 | the body is never negative |
| CandlestickPatterns.IsDoji | strategy/candlestick_patterns.py:15-22 | never a doji on a zero-range candle; with a positive range, doji iff body < doji_size × range; with a negative range the division flips the inequality |
| CandlestickPatterns.IsHammer | strategy/candlestick_patterns.py:23-39 | a hammer has a positive range and a lower shadow at least as long as its upper shadow |
| CandlestickPatterns.Engulfing | strategy/candlestick_patterns.py:40-47 | BEARISH iff current open > previous close and current close < previous open; BULLISH iff the mirror holds; None iff neither holds |
| CandlestickPatterns.IsMorningStar | strategy/candlestick_patterns.py:48-77 | a morning star needs three candles: a bearish first, a doji second whose body reaches down to the first close and up to the third close, and a bullish third |
| CandlestickPatterns.IsEveningStar | strategy/candlestick_patterns.py:78-107 | an evening star needs three candles: a bullish first, a doji second whose body reaches up to the first close and down to the third close, and a bearish third |
| CandlestickPatterns.StarsExclusive | strategy/candlestick_patterns.py:48-107 | morning and evening star never hold together |
| CandlestickPatterns.IsThreeWhiteSoldiers | strategy/candlestick_patterns.py:108-132 | the early-return loop holds iff each of the last three candles passes the per-candle soldier test; then the three are bullish with non-decreasing opens |
| CandlestickPatterns.IsThreeBlackCrows | strategy/candlestick_patterns.py:133-157 | the early-return loop holds iff each of the last three candles passes the per-candle crow test; then the three are bearish with non-increasing opens |
| CandlestickPatterns.SoldiersAndCrows | strategy/candlestick_patterns.py:108-157 | three white soldiers and three black crows never hold together |
| CandlestickPatterns.Analyze | strategy/candlestick_patterns.py:158-199 | None exactly below five candles |
| CandlestickPatterns.AnalyzeConsistent | strategy/candlestick_patterns.py:158-199 | the result never reports both stars, or both soldiers and crows; a doji is never reported on a zero-range candle; only the latest candles matter |
| ChartPatterns.SwingEnd | strategy/chart_patterns.py:20 | the scan stops at len − window, or does not run |
| ChartPatterns.SwingHighsBelowExact | strategy/chart_patterns.py:15-33 | the swing highs below n are exactly the indices strictly above both side windows, as (i, prices[i]) pairs in increasing index order |
| ChartPatterns.SwingHighsBelowShape | strategy/chart_patterns.py:20-27 | every listed point is (i, prices[i]), in increasing i, below n |
| ChartPatterns.SwingHighsBelowSound | strategy/chart_patterns.py:26-27 | every listed high lies in the scanned range and is a swing high |
| ChartPatterns.SwingHighsBelowComplete | strategy/chart_patterns.py:20-27 | every swing high in the scanned range is listed |
| ChartPatterns.SwingLowsBelowExact | strategy/chart_patterns.py:15-33 | the swing lows below n are exactly the indices strictly below both side windows, in increasing index order |
| ChartPatterns.SwingLowsBelowShape | strategy/chart_patterns.py:20-31 | every listed low is (i, prices[i]), in increasing i, below n |
| ChartPatterns.SwingLowsBelowSound | strategy/chart_patterns.py:30-31 | every listed low lies in the scanned range and is a swing low |
| ChartPatterns.SwingLowsBelowComplete | strategy/chart_patterns.py:20-31 | every swing low in the scanned range is listed |
| ChartPatterns.AppendPoint | strategy/chart_patterns.py:27-31 | appending the current index keeps the list indexed, increasing and below the scan point |
| ChartPatterns.SwingHighNotLow | strategy/chart_patterns.py:26-31 | for window ≥ 1 no index is both a swing high and a swing low |
| ChartPatterns.SwingListsDisjoint | strategy/chart_patterns.py:15-33 | for window ≥ 1 the high and low lists share no index |
| ChartPatterns.SwingHighByMax | strategy/chart_patterns.py:21-26 | the test `current > max(left) and current > max(right)` means strictly above every price in both windows |
| ChartPatterns.SwingLowByMin | strategy/chart_patterns.py:21-30 | the test `current < min(left) and current < min(right)` means strictly below every price in both windows |
| ChartPatterns.HighsStep | strategy/chart_patterns.py:20-27 | one loop iteration appends (i, prices[i]) to the highs exactly when the max test holds |
| ChartPatterns.LowsStep | strategy/chart_patterns.py:20-31 | one loop iteration appends (i, prices[i]) to the lows exactly when the min test holds |
| ChartPatterns.FindSwingPoints | strategy/chart_patterns.py:15-33 | the loop returns exactly the swing highs and the swing lows |
| ChartPatterns.PricesOf | strategy/chart_patterns.py:44 | the price column of the swing points, position for position |
| ChartPatterns.RatioExceedsPositive | strategy/chart_patterns.py:46 | for a positive denominator the numpy ratio test is num > bound × den |
| ChartPatterns.FlatBand | strategy/chart_patterns.py:43-47 | with a positive mean, the flat test holds iff every point lies within tolerance × mean of the mean |
| ChartPatterns.BandAll | strategy/chart_patterns.py:46 | no point's relative deviation exceeds the tolerance iff all points lie in the band around the centre |
| ChartPatterns.WithinBand | strategy/chart_patterns.py:46 | one point's relative deviation is within tolerance iff it lies in [m − tol·m, m + tol·m] |
| ChartPatterns.IsAscendingTriangle | strategy/chart_patterns.py:35-54 | an ascending triangle needs two highs and two lows, and its last two lows strictly rise |
| ChartPatterns.IsDescendingTriangle | strategy/chart_patterns.py:56-75 | a descending triangle needs two highs and two lows, and its last two highs strictly fall |
| ChartPatterns.LastTwoRise | strategy/chart_patterns.py:50-51 | rising support over the last three lows implies the last two rise |
| ChartPatterns.LastTwoFall | strategy/chart_patterns.py:71-72 | falling resistance over the last three highs implies the last two fall |
| ChartPatterns.MinOfSliceBelow | strategy/chart_patterns.py:159 | the trough is below a bound iff some price between the highs is |
| ChartPatterns.MaxOfSliceAbove | strategy/chart_patterns.py:186 | the peak is above a bound iff some price between the lows is |
| ChartPatterns.IsDoubleTop | strategy/chart_patterns.py:137-162 | with a positive first high: double top iff the two highs differ by at most tolerance × first, the range between them is non-empty, and some price in it is more than 5 % below the first high |
| ChartPatterns.IsDoubleBottom | strategy/chart_patterns.py:164-189 | with a positive first low: double bottom iff the lows differ by at most tolerance × first, the range between them is non-empty, and some price in it is more than 5 % above the first low |
| ChartPatterns.SwingPointsIndexIn | strategy/chart_patterns.py:153-154 | swing indices always index the price list, so the between-range reads stay in bounds |
| ChartPatterns.Analyze | strategy/chart_patterns.py:191-231 | None exactly below ten candles |
| ChartPatterns.AnalyzeDoubleTop | strategy/chart_patterns.py:191-231 | a reported double top on positive closes rests on two swing highs i < j of the closes, neither a swing low, with a close between them more than 5 % below close i |
| MacdStrategy.Multiplier | strategy/macd_strategy.py:69 | 2/(period+1) lies in (0, 1] |
| MacdStrategy.EmaSeries | strategy/macd_strategy.py:64-76 | empty below `period` values, otherwise as long as the input |
| MacdStrategy.EmaAt | strategy/macd_strategy.py:64-76 | the EMA is 0 before index period−1, and from there on lies within the lowest and highest value of the data |
| MacdStrategy.EmaStepBetween | strategy/macd_strategy.py:74 | one EMA step stays between the bounds of the price and the previous EMA |
| MacdStrategy.EmaBounds | strategy/macd_strategy.py:71-75 | from index period−1 on, the EMA stays within the range of the data |
| MacdStrategy.CalculateEma | strategy/macd_strategy.py:64-76 | the array loop fills exactly the EMA series: zeros before period−1, the SMA seed, then the recurrence |
| MacdStrategy.MacdLineShape | strategy/macd_strategy.py:50-62 | the MACD and signal lines are as long as the closes; MACD is fast EMA − slow EMA element-wise, and once both are seeded it lies within ±(highest − lowest close) |
| MacdStrategy.MacdLine | strategy/macd_strategy.py:50-62 | empty below the fast period, otherwise as long as the closes; each entry is fast EMA − slow EMA, and once the slow EMA is seeded it lies within ±(highest − lowest close) |
| MacdStrategy.SignalLine | strategy/macd_strategy.py:50-62 | as long as the MACD line; once seeded, each entry lies within the lowest and highest MACD value |
| MacdStrategy.CalculateMacd | strategy/macd_strategy.py:50-62 | the arrays returned are the MACD and signal lines |
| MacdStrategy.Crossover | strategy/macd_strategy.py:78-98 | BULLISH iff both series have two points, MACD was below the signal and is now at least the signal distance above it; BEARISH is the mirror |
| MacdStrategy.Divergence | strategy/macd_strategy.py:100-122 | None below ten points; otherwise, comparing the first and last of the final ten points (a tie counts as down): BEARISH iff price up and MACD not, BULLISH iff MACD up and price not, None iff the trends agree |
| MacdStrategy.MacdVerdict | strategy/macd_strategy.py:124-151 | None below slow+signal candles; otherwise a crossover wins, and divergence is consulted only without one |
| MacdStrategy.Analyze | strategy/macd_strategy.py:124-151 | the method returns the MACD verdict |
| RsiStrategy.Gains | strategy/rsi_strategy.py:33-34 | the gain at k is the positive part of the k-th price change |
| RsiStrategy.Losses | strategy/rsi_strategy.py:33-35 | the loss at k is the negated negative part of the k-th price change |
| RsiStrategy.SumZeroIffAllZero | strategy/rsi_strategy.py:39-44 | a sum of non-negative terms is zero iff every term is |
| RsiStrategy.MeanZeroIffAllZero | strategy/rsi_strategy.py:37-44 | the average of non-negative terms is non-negative, and zero iff every term is |
| RsiStrategy.RsiValueRange | strategy/rsi_strategy.py:42-50 | RSI lies in [0, 100]; it is 100 iff the average loss is 0, and 0 iff there are losses but no gains |
| RsiStrategy.Rsi | strategy/rsi_strategy.py:23-50 | None iff fewer than period+1 closes are held; then the RSI lies in [0, 100], is 100 iff the closes never fall, and is 0 iff they never rise but fall at least once |
| RsiStrategy.NoLossesIffRising | strategy/rsi_strategy.py:33-35 | no losses iff the closes never fall |
| RsiStrategy.NoGainsIffFalling | strategy/rsi_strategy.py:33-34 | no gains iff the closes never rise |
| RsiStrategy.VolumeConfirming | strategy/rsi_strategy.py:52-60 | confirming iff at least three volumes are held and the current one times the number of earlier ones exceeds 1.2 × their total (20 % above their mean) |
| RsiStrategy.RsiSignal | strategy/rsi_strategy.py:78-109 | BUY iff both RSIs are known, last ≤ oversold < current, and volume is confirmed; SELL iff last ≥ overbought > current with confirmation and no BUY; None while either RSI is unknown |
| RsiStrategy.RsiSignalLevels | strategy/rsi_strategy.py:78-109 | with oversold below overbought, SELL is exactly a confirmed crossing down through the overbought level |
| RsiStrategy.Strategy.constructor | strategy/rsi_strategy.py:15-22 | empty buffers and no last RSI |
| RsiStrategy.Strategy.GenerateSignal | strategy/rsi_strategy.py:62-111 | both deques are pushed with their caps; last_rsi becomes the RSI just computed; the signal compares the previous and the new RSI |
| MomentumStrategy.PriceChangePctScaled | strategy/momentum_strategy.py:40 | for a non-zero oldest close, the percentage test is a comparison of the whole move with bound/100 × oldest, reversed when the oldest close is negative |
| MomentumStrategy.MomentumSignal | strategy/momentum_strategy.py:36-64 | BUY iff the move from the oldest close exceeds 0.05 % of it (the inequality reversed for a negative oldest close), the newest volume is above the mean of the others, and the last close rose; SELL is the mirror |
| MomentumStrategy.Strategy.constructor | strategy/momentum_strategy.py:13-17 | empty buffers of capacity `lookback` |
| MomentumStrategy.Strategy.GenerateSignal | strategy/momentum_strategy.py:18-65 | both deques are pushed, never exceed `lookback`, and the result is None until the buffer is full, then the momentum decision |
| PriceActionStrategy.PriceActionSignal | strategy/price_action_strategy.py:15-78 | None on the first call or a zero-range candle; BUY iff bullish, the body is over 30 % of the range, and the close rose more than 0.01 % of the previous close's magnitude; SELL is the mirror |
| PriceActionStrategy.BodyRatioScaled | strategy/price_action_strategy.py:43-46 | the body-ratio test holds iff the range is positive and body > 0.3 × range (a zero range makes the ratio 0) |
| PriceActionStrategy.ChangePctScaled | strategy/price_action_strategy.py:48-74 | for a non-zero previous close, the percentage-change test, with its direction, means a move beyond 0.01 % of the previous close's magnitude |
| PriceActionStrategy.Strategy.constructor | strategy/price_action_strategy.py:12-14 | no previous close |
| PriceActionStrategy.Strategy.GenerateSignal | strategy/price_action_strategy.py:15-78 | every call ends with prev_close = the candle's close; the signal is the decision on the previous close |
| OrderUtils.CommissionRate | trading/order_utils.py:32 | the spot rate iff the market type is "spot", otherwise the futures rate |
| OrderUtils.StripTrailingZeros | trading/order_utils.py:14 | `rstrip('0')`: a prefix ending in a non-zero, followed only by zeros in the input |
| OrderUtils.AfterLastDot | trading/order_utils.py:14 | `split('.')[-1]`: the dot-free suffix after the last dot |
| OrderUtils.StepPrecisionOfDecimal | trading/order_utils.py:14 | a step written "0.<digits><zeros>" has as many decimals as its significant digits |
| OrderUtils.RoundStepSize | trading/order_utils.py:10-16 | a step ≥ 1 truncates to an integer toward zero; a smaller step rounds to the nearest multiple of 10^-p for the step's p decimals, ties to even |
| OrderUtils.CalculateQuantity | trading/order_utils.py:18-72 | notional = quantity × price and fee = notional × rate; the rounded base quantity is kept iff its notional reaches MIN_NOTIONAL, otherwise the bumped quantity is used |
| OrderUtils.SizeWithMinimum | trading/order_utils.py:50-70 | on both paths, notional = quantity × price and fee = notional × rate |
| OrderUtils.TradeAmountDefault | trading/order_utils.py:25-26 | a missing trade amount sizes exactly like TRADE_AMOUNT_USDT |
| OrderUtils.SellShrinkOnlyOnSpot | trading/order_utils.py:28-40 | only a spot SELL (any letter case) is scaled by 1 − 1.1 × rate; everything else sizes at amount/price |
| OrderUtils.BumpAtPrecisionZero | trading/order_utils.py:58-64 | at precision 0 the bump is ⌊1.01 × MIN/price⌋ + 1, whose notional strictly exceeds MIN_NOTIONAL |
| OrderUtils.WholeUnitOrdersMeetMinNotional | trading/order_utils.py:18-72 | at precision 0 and positive price, every sized order reaches MIN_NOTIONAL |
| OrderUtils.BumpCanRoundToZero | trading/order_utils.py:58-64 | at precision 3, MIN 5 and price 60000 the bumped quantity rounds to 0, so the order stays below MIN_NOTIONAL |
| OrderUtils.CeilToPrecision | trading/order_utils.py:62-64 | the corrected rounding gives the least multiple of 10^-precision at or above its input, so less than one unit above it |
| OrderUtils.CalculateQuantityCorrected | trading/order_utils.py:18-72 | with rounding up, every sized order reaches MIN_NOTIONAL for a positive price, at any precision |
| OrderUtils.BumpedQuantityCorrected | trading/order_utils.py:58-64 | the bumped quantity rounded up reaches MIN_NOTIONAL |
| OrderUtils.BumpMeetsMinimum | trading/order_utils.py:58-60 | any quantity at or above 1.01 × MIN/price reaches MIN_NOTIONAL |
| OrderUtils.CalculatePnl | trading/order_utils.py:74-105 | total fees = rate × q × (entry + exit); a BUY (any case) earns q(exit − entry) − fees, any other side earns q(entry − exit) − fees; the percentage times q × entry × (1 + rate) is 100 × pnl |
| OrderUtils.FlatExitLosesFees | trading/order_utils.py:83-100 | exiting at the entry price loses exactly the fees, so pnl and percentage are never positive for non-negative inputs |
| OrderUtils.LongShortMirror | trading/order_utils.py:83-98 | long and short pnl over the same prices add up to minus twice the fees |
| OrderUtils.LongScenario | trading/order_utils.py:74-105 | buying 1 unit at 100 and selling at 101 with a 0.1 % spot fee earns 0.799 |
| OrderUtils.FormatPrice | trading/order_utils.py:107-111 | the formatted price is the nearest multiple of 10^-p for the symbol's precision p (default 2), ties to even |
| OrderUtils.ValidateOrder | trading/order_utils.py:113-128 | valid iff notional ≥ MIN_NOTIONAL, q > 0 and p > 0, with no message exactly then; otherwise the first failure in the order notional, quantity, price is reported |
| OrderUtils.PositiveMinimumHidesInvalidPrice | trading/order_utils.py:117-127 | with a positive minimum the price message is unreachable: the notional or quantity check fires first |
| OrderUtils.SizedOrderValidates | trading/order_utils.py:18-128 | a positive whole-unit quantity from sizing always passes validation |
| PositionTracker.Position.constructor | trading/position_tracker.py:186-195 | a new position records its opening data and is open |
| PositionTracker.SignedPnl | trading/position_tracker.py:214-217 | PnL % is (live − entry)/entry × 100, negated for a short side |
| PositionTracker.SignedPnlDirection | trading/position_tracker.py:214-217 | for a positive entry, PnL is positive iff the price moved in the position's favour |
| PositionTracker.ShortSideSpellings | trading/position_tracker.py:216 | "sell" in any case is short; "short" only on futures and only in lower case |
| PositionTracker.Elapsed | trading/position_tracker.py:219 | `timedelta.seconds` lies in [0, 86400) |
| PositionTracker.ElapsedWithinDay | trading/position_tracker.py:219 | within one day, elapsed is the whole seconds since opening |
| PositionTracker.ElapsedWrapsDaily | trading/position_tracker.py:219 | elapsed repeats every day, so a hold longer than a day looks short |
| PositionTracker.ExitReasonOf | trading/position_tracker.py:221-227 | TARGET iff pnl ≥ target; else STOPLOSS iff pnl ≤ −stoploss; else TIME EXIT iff elapsed ≥ max hold; else none |
| PositionTracker.TickOutcome | trading/position_tracker.py:207-247 | a tick without a cached price closes nothing; otherwise a record is logged iff a reason fires, holding the live price, the times, the computed pnl and the reason |
| PositionTracker.FirstExit | trading/position_tracker.py:207-249 | the loop closes at the first tick whose outcome fires, and no earlier tick fires |
| PositionTracker.MissingPriceDelaysExit | trading/position_tracker.py:209-212 | a tick without a price only shifts the exit by one poll |
| PositionTracker.TimeExitBound | trading/position_tracker.py:219-227 | a priced tick past the hold time closes the position there or earlier |
| PositionTracker.ExitRecordConsistent | trading/position_tracker.py:229-247 | the closing record holds that tick's price and time, its signed pnl, and a reason consistent with the thresholds |
| PositionTracker.PositionTracker.constructor | trading/position_tracker.py:196-199 | no positions and an empty ledger |
| PositionTracker.PositionTracker.OpenPosition | trading/position_tracker.py:200-206 | exactly one new open position is appended and earlier entries are unchanged |
| PositionTracker.PositionTracker.MonitorPosition | trading/position_tracker.py:207-249 | a closed position is not polled; otherwise the position closes at the first firing tick, with exactly one ledger record, or stays open after all ticks |
| TradeManager.PySuffix | trading/trade_manager.py:98-100 | `s[-n:]`: the suffix of length min(n, |s|), and the whole sequence for n = 0 |
| TradeManager.Initial | trading/trade_manager.py:39-59 | highest = lowest = initial price; stop = initial × (1 − multiplier × 0.001) for either side; no target; trailing off |
| TradeManager.TrueRange | trading/trade_manager.py:98-105 | the true range is the largest of high − low and the two gaps to the previous close, so it is non-negative |
| TradeManager.TrueRanges | trading/trade_manager.py:94-106 | one true range per bar after the first, each non-negative and at least the bar's range |
| TradeManager.TrueRangesOf | trading/trade_manager.py:94-106 | the loop returns exactly the true ranges |
| TradeManager.AverageTrueRangeOf | trading/trade_manager.py:94-108 | the method returns the ATR |
| TradeManager.AtrNonNegative | trading/trade_manager.py:94-108 | ATR exists iff each history has two entries, and is then non-negative |
| TradeManager.HistoryStep | trading/trade_manager.py:70-78 | a bar changes only the four histories |
| TradeManager.VolatilityStep | trading/trade_manager.py:65-122 | updating the metrics leaves the extremes, stop, target, trailing flag, entry and side unchanged |
| TradeManager.InitialBounded | trading/trade_manager.py:39-59 | the initial histories are within their caps |
| TradeManager.VolatilityStepBounded | trading/trade_manager.py:65-122 | the metrics update keeps every history within its cap |
| TradeManager.IndicatorStepSound | trading/trade_manager.py:94-121 | recomputing keeps ATR non-negative and the lower band not above the upper |
| TradeManager.StopDistance | trading/trade_manager.py:123-152 | with a non-negative price, TRAILING_STOP_VALUE, ATR and historical volatility and ordered bands, the stop distance is non-negative on all three stop types and on the 1 % fallback |
| TradeManager.PriceMovement | trading/trade_manager.py:166-167 | the favourable move relative to entry: up for BUY, down otherwise |
| TradeManager.AdjustLevels | trading/trade_manager.py:153-208 | moving the levels changes only the extremes, the trailing flag, the stop and the target |
| TradeManager.ExtremesMoveOneWay | trading/trade_manager.py:160-165 | for BUY the highest price never decreases and reaches the price, with the lowest unchanged; otherwise the lowest never increases and the highest is unchanged |
| TradeManager.TrailingSticky | trading/trade_manager.py:166-169 | trailing becomes active once the favourable move reaches the activation threshold, and stays active |
| TradeManager.StopRatchet | trading/trade_manager.py:171-198 | before activation the stop is entry ∓ distance; after it a BUY stop never falls and a non-zero SELL stop never rises |
| TradeManager.TargetFormula | trading/trade_manager.py:186-205 | target = price ± profit distance, which is price × MAX/100 when fixed and stop distance × MAX otherwise |
| TradeManager.BasicLevels | trading/trade_manager.py:209-228 | the basic stop is at most half the move since entry away from the price and never looser than an existing stop; with a non-negative MIN_PROFIT_MULTIPLIER the target lies on the profitable side of the price |
| TradeManager.ShouldExit | trading/trade_manager.py:263-307 | no exit unless stop and target are set; an exit carries a reason; TRAILING_STOP iff the stop is crossed; every other reason implies its own condition |
| TradeManager.ShouldExitOrder | trading/trade_manager.py:263-307 | the reasons are checked in the order trailing stop, take profit, band breach, max drawdown, volatility expansion: each fires iff its condition holds and no earlier one does |
| TradeManager.NoExitBeforeLevels | trading/trade_manager.py:263-270 | a fresh manager never exits, because no target is set |
| TradeManager.TradeManager.constructor | trading/trade_manager.py:25-64 | the fields start in the initial state |
| TradeManager.TradeManager.UpdateVolatilityMetrics | trading/trade_manager.py:65-122 | the fields become the volatility step of the old state |
| TradeManager.TradeManager.UpdateHistories | trading/trade_manager.py:70-78 | the histories are pushed, and nothing else changes |
| TradeManager.TradeManager.RecomputeIndicators | trading/trade_manager.py:94-121 | only ATR, the bands and historical volatility change, to their recomputed values |
| TradeManager.TradeManager.CalculateDynamicLevels | trading/trade_manager.py:153-208 | the fields become the levels step, and the returned pair is the new stop and target |
| TradeManager.TradeManager.MoveLevels | trading/trade_manager.py:158-208 | only the extremes, the trailing flag, the stop and the target change, as the level adjustment says |
| TradeUtils.PositionSize | trading/trade_utils.py:30-35 | 0 for a zero stop; otherwise size × stop = balance × risk, so hitting the stop loses exactly the risk budget |
| TradeUtils.Kelly | trading/trade_utils.py:37-40 | for a positive ratio the Kelly fraction is positive iff w × R > 1 − w, zero iff equal, and never above the win rate when w ≤ 1 |
| TradeUtils.RiskOfRuin | trading/trade_utils.py:42-46 | 1.0 iff w ≤ 0.5 or risk ≥ 1, otherwise negative: never a probability strictly between 0 and 1 |
| TradeUtils.FundingCost | trading/trade_utils.py:72-74 | a 365-day hold costs value × rate, and the cost is non-negative when value × rate and the days are |
| TradeUtils.FundingCostLinear | trading/trade_utils.py:72-74 | funding is additive in position value and in days, and 365 days cost value × rate |
| TradeUtils.Peak | trading/trade_utils.py:17 | the running maximum is the largest price so far and one of them |
| TradeUtils.Drawdowns | trading/trade_utils.py:17-18 | one drawdown per price, each (p − peak)/peak divided as float64: −inf below a zero peak and NaN at it |
| TradeUtils.NanMin | trading/trade_utils.py:19 | `Series.min()` is NaN iff every value is; otherwise it is one of the values and at most every non-NaN value |
| TradeUtils.MaxDrawdown | trading/trade_utils.py:15-19 | NaN iff every drawdown is NaN (an empty series among them); otherwise it is one of the drawdowns and at most every non-NaN one |
| TradeUtils.DrawdownBounds | trading/trade_utils.py:15-19 | for positive prices each drawdown is finite, lies in (−1, 0], and is 0 iff the price is at its running peak |
| TradeUtils.MaxDrawdownBounds | trading/trade_utils.py:15-19 | for positive prices the maximum drawdown is finite, lies in (−1, 0], and is 0 on a non-decreasing series |
| TradeUtils.MaxDrawdownZeroPeak | trading/trade_utils.py:15-19 | a negative price below a running peak of 0 gives a drawdown of −inf, and so the maximum drawdown is −inf |
| TradeUtils.MaxDrawdownAllZero | trading/trade_utils.py:15-19 | an all-zero series has only NaN drawdowns, so the maximum drawdown is NaN |
| TradeUtils.PowerPositive | trading/trade_utils.py:112 | a positive base raised to any integer power is positive |
| TradeUtils.ChargePositive | trading/trade_utils.py:113-116 | paying a commission below 1 keeps a positive balance positive |
| TradeUtils.Run | trading/trade_utils.py:101-122 | after bar n the position is the signal of bar n − 1, and 0 before any bar |
| TradeUtils.SignalBars | trading/trade_utils.py:107-122 | the trade bars are bars ≥ 1 with a non-zero signal |
| TradeUtils.TradesAtSignals | trading/trade_utils.py:107-122 | a trade is appended exactly at each bar i ≥ 1 with a non-zero signal, at that price and with that position; bar 0 is ignored |
| TradeUtils.HeldPositive | trading/trade_utils.py:109-113 | a held bar keeps a positive balance positive for positive prices and commission below 1 |
| TradeUtils.BarStepSolvent | trading/trade_utils.py:107-122 | one bar keeps the balance positive |
| TradeUtils.BalancePositive | trading/trade_utils.py:101-128 | the balance stays positive over the whole run for positive prices and commission below 1 |
| TradeUtils.BacktestStrategy | trading/trade_utils.py:101-128 | the loop returns the run's final balance, return = (final − 1) × 100, and its trades |
| CombinedStrategy.CountTrueZero | strategy/combined_strategy.py:130-131 | no truthy value iff the count is zero |
| CombinedStrategy.VotesTotal | strategy/combined_strategy.py:84-109 | the three binary votes always go to one side, and momentum adds at most one: between 3 and 4 votes in all |
| CombinedStrategy.Trend | strategy/combined_strategy.py:66-116 | NEUTRAL below 50 candles; otherwise BULLISH iff at least 3 bullish votes, BEARISH iff at least 3 bearish votes, never both |
| CombinedStrategy.FlatMarketIsBearish | strategy/combined_strategy.py:88-114 | a constant series is called BEARISH, because every tie votes bearish |
| CombinedStrategy.TrendRecentOnly | strategy/combined_strategy.py:74-116 | only the last 50 closes decide the trend |
| CombinedStrategy.IdentifyTrend | strategy/combined_strategy.py:66-116 | the counting method returns the trend |
| CombinedStrategy.VolumeTrend | strategy/combined_strategy.py:55-64 | None exactly below 20 candles |
| CombinedStrategy.VolumeTrendBelowOne | strategy/combined_strategy.py:55-64 | for non-negative volumes the ratio is below 1 iff the newest volume is below the 20-bar mean |
| CombinedStrategy.ShouldFilter | strategy/combined_strategy.py:146-158 | no filter enabled never filters; low or missing volatility filters; once the volatility gate passes or is off, for non-negative volumes the signal is filtered iff the volume filter is on and there are fewer than 20 candles or the newest volume is below the mean |
| CombinedStrategy.PatternConfidence | strategy/combined_strategy.py:118-144 | confidence lies in [0, 1]; it is 0 below ten candles, 0 iff no pattern is truthy, and 1 from five patterns on |
| CombinedStrategy.CappedConfidence | strategy/combined_strategy.py:134-144 | 0.2 per pattern plus the 0.3 trend bonus, capped at 1: in [0, 1], 0 iff no pattern, 1 from five patterns on |
| CombinedStrategy.LabelWeightUnit | strategy/combined_strategy.py:204-212 | at weight 1 a dict contributes its number of matching labels |
| CombinedStrategy.LabelWeightNonNegative | strategy/combined_strategy.py:204-212 | non-negative weights give non-negative sums |
| CombinedStrategy.UnitWeights | strategy/combined_strategy.py:200-218 | with all weights 1 the weighted vote is the number of matching labels |
| CombinedStrategy.EntryWeightNonNegative | strategy/combined_strategy.py:200-212 | one strategy's result adds a non-negative weight when its weight is non-negative |
| CombinedStrategy.WeightedVotes | strategy/combined_strategy.py:197-218 | the weighted tally of a direction is non-negative when every configured weight is |
| CombinedStrategy.TallyLabels | strategy/combined_strategy.py:208-212 | the inner loop adds the weight once per matching label |
| CombinedStrategy.TallyVotes | strategy/combined_strategy.py:197-218 | the outer loop accumulates exactly the weighted bullish and bearish totals |
| CombinedStrategy.SignalsLabels | strategy/combined_strategy.py:188-218 | the labels counted are the MACD verdict, the RSI and momentum results, and the engulfing label; the chart dict holds no direction |
| CombinedStrategy.FinalSignal | strategy/combined_strategy.py:221-225 | a side is reported iff its total is at least 2.0 and strictly more than the other side's |
| CombinedStrategy.CombinedVerdict | strategy/combined_strategy.py:160-231 | None below 50 candles, when filtered, or on a NEUTRAL trend with confirmation required; a reported side passed every gate in order, including the confidence minimum, and won the weighted vote with at least 2.0 |
| CombinedStrategy.UnreachableConfidence | strategy/combined_strategy.py:184-185 | a minimum confidence above 1 silences the strategy |
| CombinedStrategy.UnitWeightVerdict | strategy/combined_strategy.py:188-225 | with unit weights a reported side has at least two of the four directional votes and more than the other side |
| CombinedStrategy.Strategy.constructor | strategy/combined_strategy.py:30-44 | empty signal store |
| CombinedStrategy.Strategy.Analyze | strategy/combined_strategy.py:160-231 | the store is cleared once 50 candles are present, and the result is the combined verdict |
| CombinedStrategy.Decide | strategy/combined_strategy.py:171-231 | the gates then the vote yield the combined verdict |
| CombinedStrategy.Vote | strategy/combined_strategy.py:187-225 | the vote yields the final signal of the weighted totals |
| AdvancedStrategyTester.Prepend | strategy/advanced_strategy_tester.py:217 | each tail gets the head in front |
| AdvancedStrategyTester.PrependEach | strategy/advanced_strategy_tester.py:217 | heads × tails combinations |
| AdvancedStrategyTester.ProductCount | strategy/advanced_strategy_tester.py:217 | the product has as many combinations as the product of the list lengths |
| AdvancedStrategyTester.LengthProductZero | strategy/advanced_strategy_tester.py:217 | there are none iff some list is empty |
| AdvancedStrategyTester.PrependEachIndex | strategy/advanced_strategy_tester.py:217 | combination a·|tails| + b is head a followed by tail b |
| AdvancedStrategyTester.PrependEachMember | strategy/advanced_strategy_tester.py:217 | a combination is a head followed by a tail |
| AdvancedStrategyTester.ProductMembers | strategy/advanced_strategy_tester.py:217 | a combination is in the product iff it picks one value from each list, in order |
| AdvancedStrategyTester.ProductIndex | strategy/advanced_strategy_tester.py:217 | lexicographic order with the last list varying fastest |
| AdvancedStrategyTester.Keys | strategy/advanced_strategy_tester.py:215 | the grid's keys in order |
| AdvancedStrategyTester.ValueLists | strategy/advanced_strategy_tester.py:216 | the grid's value lists in order |
| AdvancedStrategyTester.Zip | strategy/advanced_strategy_tester.py:219 | `zip` pairs up to the shorter length |
| AdvancedStrategyTester.ParamCombinations | strategy/advanced_strategy_tester.py:211-219 | exactly (product of lengths) combinations; one empty dict for an empty grid, none if any list is empty; each has exactly the grid's keys with a value from that key's list, and every such assignment occurs |
| AdvancedStrategyTester.WindowStep | strategy/advanced_strategy_tester.py:136-160 | iteration i appends the records of window candles[i−50..i] |
| AdvancedStrategyTester.DictSignalsMembers | strategy/advanced_strategy_tester.py:144-153 | one record per truthy dict value, carrying its pattern name and value |
| AdvancedStrategyTester.WindowSignalsSound | strategy/advanced_strategy_tester.py:135-160 | nothing before bar 50; every record has a truthy signal, the given params, and the timestamp and close of a bar ≥ 50 |
| AdvancedStrategyTester.AppendDictSignals | strategy/advanced_strategy_tester.py:144-153 | the dict loop appends exactly the dict's records |
| AdvancedStrategyTester.AppendResultSignals | strategy/advanced_strategy_tester.py:140-160 | a falsy result adds nothing, a dict its records, and any other value one record |
| AdvancedStrategyTester.BacktestSignals | strategy/advanced_strategy_tester.py:120-160 | None exactly without candles; otherwise the loop collects the records of every window |
| StrategyAnalyzer.Count | strategy/strategy_analyzer.py:170 | a count never exceeds the number of signals |
| StrategyAnalyzer.CountOccurs | strategy/strategy_analyzer.py:163-170 | a parameter set has a positive count iff it occurs |
| StrategyAnalyzer.PatternsOfMembers | strategy/strategy_analyzer.py:171-172 | a pattern is collected iff some signal with those params carries it under the 'pattern' key |
| StrategyAnalyzer.FirstSeenMember | strategy/strategy_analyzer.py:158-164 | the grouped keys are exactly the non-empty params that occur |
| StrategyAnalyzer.FirstSeenDistinct | strategy/strategy_analyzer.py:163-164 | each params tuple gets one entry |
| StrategyAnalyzer.FirstSeenOrder | strategy/strategy_analyzer.py:163-164 | the keys are in first-insertion order |
| StrategyAnalyzer.FirstMax | strategy/strategy_analyzer.py:176-177 | `max` returns the first entry with the greatest score |
| StrategyAnalyzer.PatternScores | strategy/strategy_analyzer.py:177 | the score of a key is its number of distinct patterns |
| StrategyAnalyzer.FirstSeenNonEmpty | strategy/strategy_analyzer.py:158-164 | some params are grouped iff one of the signals has non-empty params |
| StrategyAnalyzer.BestFor | strategy/strategy_analyzer.py:151-181 | a timeframe gets an entry iff one of its signals has non-empty params; the chosen params occur, are non-empty, and carry their count, pattern set and accuracy 0 |
| StrategyAnalyzer.BestForMaximal | strategy/strategy_analyzer.py:175-177 | no other params have more distinct patterns |
| StrategyAnalyzer.BestForEarliest | strategy/strategy_analyzer.py:175-177 | on a tie, the winner appeared before the competitor |
| StrategyAnalyzer.Entries | strategy/strategy_analyzer.py:151-181 | one candidate entry per timeframe |
| StrategyAnalyzer.CollectKeys | strategy/strategy_analyzer.py:175-178 | a name is stored iff some timeframe with that name has an entry |
| StrategyAnalyzer.CollectValue | strategy/strategy_analyzer.py:178-181 | with distinct names, each stored entry is that timeframe's |
| StrategyAnalyzer.BestParams | strategy/strategy_analyzer.py:147-183 | the result has a timeframe name iff one timeframe of that name has a signal with non-empty params |
| StrategyAnalyzer.BestParamsValue | strategy/strategy_analyzer.py:147-183 | with distinct timeframe names, each timeframe's entry is its own best parameter set |
| StrategyAnalyzer.GroupByParams | strategy/strategy_analyzer.py:157-172 | the grouping loop yields one entry per non-empty params in first-seen order, with its count, its pattern set and accuracy 0 |
| StrategyAnalyzer.PatternsNone | strategy/strategy_analyzer.py:171-172 | params that never occur collect no patterns |
| StrategyAnalyzer.BestOfTimeframe | strategy/strategy_analyzer.py:157-181 | the method returns the best entry of one timeframe |
| StrategyAnalyzer.FindBestParameters | strategy/strategy_analyzer.py:147-183 | the loop over timeframes builds exactly the best-parameter map |

## Left out

**Arithmetic and representation**
- Floating point: every price is an exact real. IEEE rounding, negative zero, infinities in the sizing code and `str(float)` spelling are not modelled. The text of the step size that `round_step_size` splits is an input.
- Python `round` and `int` are exact real functions; no claim is made about float results.
- Common.Upper and Common.Lower: map ASCII letters only. Python's `str.upper()` and `str.lower()` follow Unicode, so `"ſell".upper() == "SELL"` (a spot sell that trading/order_utils.py:38 shrinks and the model does not) and `"ß".upper() == "SS"` (a longer string, where the model keeps the length).
- TradeUtils.BacktestStrategy: signals are integers (`seq<int>`); `backtest_strategy` accepts any numeric signal as the exponent of its balance factor, so fractional or float signals are not modelled.

**I/O, concurrency and library calls**
- Redis, Mongo, logging, sleeping and threads are not modelled:
  - the delay between retries;
  - the thread of `monitor_position` and its polling: the `REFRESH_INTERVAL` sleep after a poll that finds no cached price, and the immediate re-poll after a priced poll without an exit. The polls become a finite sequence of ticks, which covers both;
  - the Redis write of a closed candle, which becomes a published list.
- PositionTracker.TickOutcome: one `now` per tick serves both the elapsed time and the exit time, while `monitor_position` reads the clock twice (trading/position_tracker.py:219 and :242); the two readings may differ by the time between them.
- numpy, pandas and scipy statistics are inputs:
  - standard deviations, log returns and √252;
  - `calculate_volatility` of the combined strategy;
  - the polynomial-fit flag and wedge patterns of strategy/chart_patterns.py.
- Sharpe ratio, VaR, CVaR, optimal leverage, correlation, Greeks and `calculate_volatility` in trading/trade_utils.py are not modelled: they are library statistics.
- The exchange-client methods of trading/base_manager.py are not modelled: `log_position`, `validate_symbol`, `check_maintenance`, the wallet, fees, trade history, funding time and `__str__`. The wrapped exchange call of `retry_on_error` is the outcome of each attempt.
- The loading, metrics, report and saving of strategy/strategy_analyzer.py (pandas and files) are not modelled.
- In strategy/advanced_strategy_tester.py the following are not modelled: `get_historical_data`, `calculate_performance_metrics`, `test_all_strategies`, the JSON helpers and the `setattr` of parameters. The candles and the analysis are inputs.

**Code that cannot run as written**
- `calculate_atr_based_levels` in trading/trade_manager.py reads an attribute that is never set, so it always raises.
- The first `calculate_ema` and `calculate_macd` of strategy/macd_strategy.py are dead: the second definitions replace them.
- `generate_signal` is abstract in strategy/base_strategy.py:10-11, and four subclasses do not define it: the combined strategy, the candlestick patterns, the chart patterns and the MACD strategy (strategy/combined_strategy.py:20, strategy/candlestick_patterns.py:4, strategy/chart_patterns.py:4, strategy/macd_strategy.py:4). None of the four can be instantiated, so their `analyze` methods are modelled as functions of the candles.
- The RSI and momentum strategies have no `analyze`, so strategy/combined_strategy.py:190 raises. Their results are inputs of the vote (`SubResult`).

**Fixed parameters**
- The `window` arguments of `find_swing_points` (5) and `calculate_volume_trend` (20) are fixed at their defaults.
- The tolerance of the chart patterns is a parameter of the predicates and fixed at 0.02 in `analyze`.

**Contracts stated under a stronger precondition than the source's**
- MacdStrategy.CalculateMacd, MacdStrategy.MacdLine and MacdStrategy.SignalLine: require at least 26 closes or fewer than 12. With 12 to 25 closes the fast and slow EMA arrays differ in length and numpy raises a broadcast ValueError on their difference (strategy/macd_strategy.py:57); that error is not modelled. `analyze` never reaches it, since it returns None below 35 candles (strategy/macd_strategy.py:129-130).
- ChartPatterns.IsDoubleTop: characterises the rule for a positive first high only. For other highs the numpy ratios of a zero or negative denominator are modelled but not characterised.
- ChartPatterns.IsDoubleBottom: characterises the rule for a positive first low only.
- ChartPatterns.FlatBand: states the flat test for a positive mean only.
- TradeUtils.MaxDrawdownBounds: states the (−1, 0] range for positive prices only; TradeUtils.MaxDrawdown itself accepts every series, and TradeUtils.MaxDrawdownZeroPeak and TradeUtils.MaxDrawdownAllZero state the −inf and NaN cases of a zero peak.
- RsiStrategy.Strategy.constructor: requires rsi_period ≥ 1. With a period of 0 the price deque holds one close, `np.diff` is empty and the averages are NaN (numpy warns but does not raise), so the RSI is NaN and no signal is ever produced; NaN RSI values are not modelled.
- MomentumStrategy.Strategy.GenerateSignal: requires a lookback of at least two and a non-zero oldest close once the buffer is full. Otherwise the source raises.

**Contracts stated one-way**
- CombinedStrategy.CombinedVerdict: states what a reported side implies, and not the converse as an if-and-only-if.
- TradeManager.ShouldExit: its own contract states TRAILING_STOP as an if-and-only-if and the other reasons one-way. The order of all of them is stated by TradeManager.ShouldExitOrder.

## Findings

| source | as written | input that shows it | evidently intended | confidence | as-written member | corrected member |
|---|---|---|---|---|---|---|
| trading/order_utils.py:58-64 | when the notional is below MIN_NOTIONAL, the bump-up quantity 1.01 × MIN/price is rounded to the symbol's precision with `round`, which can round it down to 0 | MIN_NOTIONAL 5, price 60000, precision 3: 1.01 × 5/60000 ≈ 0.0000842 rounds to 0.0, so the order is sized at quantity 0 and stays below the minimum | round the bump up, so that the sized order always reaches MIN_NOTIONAL | not executed | OrderUtils.BumpCanRoundToZero | OrderUtils.CalculateQuantityCorrected |
