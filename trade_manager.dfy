/**
 * The adaptive stop and target manager of one open trade
 * (trading/trade_manager.py). A `TradeManager` keeps the price extremes seen
 * since entry, bounded histories of highs, lows, closes and log returns, the
 * volatility measures derived from them (ATR, Bollinger bands, historical
 * volatility), the current stop and target, and whether the trailing stop has
 * been activated.
 *
 * The numerical library values the source computes with numpy (the natural
 * log of a return, the standard deviation of the Bollinger window and of the
 * returns) are parameters of the update; sqrt(252) is a named constant that
 * only ever scales the historical volatility up and back down.
 */
module TradeManager {
  import opened Common

  /** The configuration constants the manager imports. */
  datatype ManagerConfig = ManagerConfig(
    atrPeriod: nat,
    bollingerPeriod: nat,
    bollingerStd: real,
    volatilityWindow: nat,
    volatilityStdMultiplier: real,
    trailingStopType: string,
    trailingStopValue: real,
    trailingActivationPct: real,
    profitTakingType: string,
    minProfitMultiplier: real,
    maxProfitMultiplier: real,
    maxDrawdownPct: real)

  /** np.sqrt(252), the annualisation factor of a daily volatility. */
  const Sqrt252: real := 15.874507866387544

  /** Every field of a manager: the entry, the extremes, the histories, the indicators and the levels. */
  datatype ManagerState = ManagerState(
    initialPrice: real,
    side: string,
    highestPrice: real,
    lowestPrice: real,
    priceHistory: seq<real>,
    highPrices: seq<real>,
    lowPrices: seq<real>,
    logReturns: seq<real>,
    atr: Option<real>,
    bollingerUpper: real,
    bollingerLower: real,
    historicalVolatility: real,
    currentStop: real,
    currentTarget: Option<real>,
    trailingActivated: bool)

  datatype ManagerExit = TrailingStop | TakeProfit | VolatilityBreakdown | VolatilityBreakout | MaxDrawdown
                       | VolatilityExpansion

  /** The maxlen of the close history: max(ATR_PERIOD, BOLLINGER_PERIOD, VOLATILITY_WINDOW). */
  function HistoryCap(cfg: ManagerConfig): nat
  {
    if cfg.atrPeriod >= cfg.bollingerPeriod && cfg.atrPeriod >= cfg.volatilityWindow then cfg.atrPeriod
    else if cfg.bollingerPeriod >= cfg.volatilityWindow then cfg.bollingerPeriod
    else cfg.volatilityWindow
  }

  /** The length above which one close is dropped after an update: max(ATR_PERIOD, BOLLINGER_PERIOD). */
  function TrimLength(cfg: ManagerConfig): nat
  {
    if cfg.atrPeriod >= cfg.bollingerPeriod then cfg.atrPeriod else cfg.bollingerPeriod
  }

  /** `s[-n:]` in Python: the last n items, all of them when n is 0 or at least the length. */
  function PySuffix(s: seq<real>, n: nat): (r: seq<real>)
    ensures |r| == if n == 0 || n >= |s| then |s| else n
    ensures r == s[|s| - |r|..]
  {
    if n == 0 || n >= |s| then s else s[|s| - n..]
  }

  /**
   * The state `__init__` builds: both extremes at the entry price, single-item
   * histories (truncated by their maxlen), ATR 0, both bands at the entry
   * price, no historical volatility, a stop VOLATILITY_STD_MULTIPLIER tenths
   * of a percent below the entry whatever the side, no target and no trailing.
   */
  function Initial(cfg: ManagerConfig, initialPrice: real, side: string): (s: ManagerState)
    ensures s.highestPrice == s.lowestPrice == s.initialPrice == initialPrice
    ensures s.currentStop == initialPrice * (1.0 - cfg.volatilityStdMultiplier * 0.001)
    ensures s.currentTarget.None? && !s.trailingActivated
  {
    ManagerState(initialPrice, Upper(side), initialPrice, initialPrice,
                 DequePush([], initialPrice, HistoryCap(cfg)),
                 DequePush([], initialPrice, cfg.atrPeriod), DequePush([], initialPrice, cfg.atrPeriod),
                 DequePush([], 0.0, cfg.volatilityWindow),
                 Some(0.0), initialPrice, initialPrice, 0.0,
                 initialPrice * (1.0 - cfg.volatilityStdMultiplier * 0.001), None, false)
  }

  // ---------------------------------------------------------------------------
  // update_volatility_metrics

  /** max(high - low, |high - prev_close|, |low - prev_close|). */
  function TrueRange(high: real, low: real, prevClose: real): (r: real)
    ensures r >= 0.0 && r >= high - low && r >= Abs(high - prevClose) && r >= Abs(low - prevClose)
    ensures r == high - low || r == Abs(high - prevClose) || r == Abs(low - prevClose)
  {
    Max(Max(high - low, Abs(high - prevClose)), Abs(low - prevClose))
  }

  /**
   * The number of true ranges the ATR loop forms: index i runs from 1 while it
   * is below the length of all three histories.
   */
  function TrueRangeCount(closes: seq<real>, highs: seq<real>, lows: seq<real>): nat
  {
    var n := if |closes| <= |highs| && |closes| <= |lows| then |closes|
             else if |highs| <= |lows| then |highs| else |lows|;
    if n >= 1 then n - 1 else 0
  }

  /**
   * The true ranges of the ATR loop, in index order: the k-th pairs the
   * high and low at index k+1 with the close at index k, position by position
   * in the three deques.
   */
  function TrueRanges(closes: seq<real>, highs: seq<real>, lows: seq<real>): (r: seq<real>)
    ensures |r| == TrueRangeCount(closes, highs, lows)
    ensures forall k :: 0 <= k < |r| ==> r[k] >= 0.0 && r[k] >= highs[k + 1] - lows[k + 1]
  {
    var n := TrueRangeCount(closes, highs, lows);
    seq(n, k requires 0 <= k < n => TrueRange(highs[k + 1], lows[k + 1], closes[k]))
  }

  /** The ATR loop itself. */
  method TrueRangesOf(closes: seq<real>, highs: seq<real>, lows: seq<real>) returns (ranges: seq<real>)
    ensures ranges == TrueRanges(closes, highs, lows)
  {
    ranges := [];
    var i := 1;
    while i < |closes|
      invariant 1 <= i && (|closes| >= 1 ==> i <= |closes|)
      invariant |ranges| == TrueRangeCount(closes[..if i <= |closes| then i else |closes|], highs, lows)
      invariant forall k :: 0 <= k < |ranges| ==> ranges[k] == TrueRange(highs[k + 1], lows[k + 1], closes[k])
    {
      if i < |highs| && i < |lows| {
        ranges := ranges + [TrueRange(highs[i], lows[i], closes[i - 1])];
      }
      i := i + 1;
    }
    assert closes[..if i <= |closes| then i else |closes|] == closes;
  }

  /** `sum(true_ranges) / len(true_ranges) if true_ranges else None`. */
  function AverageTrueRange(closes: seq<real>, highs: seq<real>, lows: seq<real>): Option<real>
  {
    var ranges := TrueRanges(closes, highs, lows);
    if |ranges| > 0 then Some(Mean(ranges)) else None
  }

  /** The ATR of the three histories, by way of the true-range loop. */
  method AverageTrueRangeOf(closes: seq<real>, highs: seq<real>, lows: seq<real>) returns (atr: Option<real>)
    ensures atr == AverageTrueRange(closes, highs, lows)
  {
    var ranges := TrueRangesOf(closes, highs, lows);
    atr := if |ranges| > 0 then Some(Mean(ranges)) else None;
  }

  /**
   * The ATR exists exactly when the three histories all hold at least two
   * items, and then it is non-negative.
   */
  lemma AtrNonNegative(closes: seq<real>, highs: seq<real>, lows: seq<real>)
    ensures AverageTrueRange(closes, highs, lows).Some? <==> |closes| >= 2 && |highs| >= 2 && |lows| >= 2
    ensures AverageTrueRange(closes, highs, lows).Some? ==> AverageTrueRange(closes, highs, lows).value >= 0.0
  {
    var ranges := TrueRanges(closes, highs, lows);
    if |ranges| > 0 {
      MeanBounds(ranges, 0.0, MaxOf(ranges));
    }
  }

  /**
   * The history part of `update_volatility_metrics(high, low, close)`: append
   * to the bounded histories (a log return only once there are two closes)
   * and drop the oldest close above max(ATR_PERIOD, BOLLINGER_PERIOD).
   */
  function HistoryStep(cfg: ManagerConfig, s: ManagerState, high: real, low: real, close: real,
                       logReturn: real): (t: ManagerState)
    ensures t == s.(highPrices := t.highPrices, lowPrices := t.lowPrices, priceHistory := t.priceHistory,
                    logReturns := t.logReturns)
  {
    var appended := DequePush(s.priceHistory, close, HistoryCap(cfg));
    s.(highPrices := DequePush(s.highPrices, high, cfg.atrPeriod),
       lowPrices := DequePush(s.lowPrices, low, cfg.atrPeriod),
       priceHistory := if |appended| > TrimLength(cfg) then appended[1..] else appended,
       logReturns := if |appended| >= 2 then DequePush(s.logReturns, logReturn, cfg.volatilityWindow) else s.logReturns)
  }

  /** The middle Bollinger band: the mean of the last BOLLINGER_PERIOD closes. */
  function BandMiddle(cfg: ManagerConfig, closes: seq<real>): real
    requires |closes| > 0
  {
    Mean(PySuffix(closes, cfg.bollingerPeriod))
  }

  /** Half the Bollinger band: BOLLINGER_STD standard deviations of the closes. */
  function BandWidth(cfg: ManagerConfig, priceStd: real): real
  {
    cfg.bollingerStd * priceStd
  }

  /** The standard deviation of the log returns, annualised over 252 trading days. */
  function Annualized(returnsStd: real): real
  {
    returnsStd * Sqrt252
  }

  /**
   * The indicator part: with fewer than two closes nothing is recomputed;
   * otherwise the ATR is recomputed, the bands once BOLLINGER_PERIOD closes
   * are held and the historical volatility once VOLATILITY_WINDOW returns
   * are held. `priceStd` and `returnsStd` are the numpy standard deviations.
   */
  function IndicatorStep(cfg: ManagerConfig, s: ManagerState, priceStd: real, returnsStd: real): ManagerState
  {
    if |s.priceHistory| < 2 then s
    else
      var sma := BandMiddle(cfg, s.priceHistory);
      var bandsDue := |s.priceHistory| >= cfg.bollingerPeriod;
      s.(atr := AverageTrueRange(s.priceHistory, s.highPrices, s.lowPrices),
         bollingerUpper := if bandsDue then sma + BandWidth(cfg, priceStd) else s.bollingerUpper,
         bollingerLower := if bandsDue then sma - BandWidth(cfg, priceStd) else s.bollingerLower,
         historicalVolatility := if |s.logReturns| >= cfg.volatilityWindow then Annualized(returnsStd)
                                 else s.historicalVolatility)
  }

  /** `update_volatility_metrics(high, low, close)`, the numpy values `logReturn`, `priceStd` and `returnsStd` given. */
  function VolatilityStep(cfg: ManagerConfig, s: ManagerState, high: real, low: real, close: real,
                          logReturn: real, priceStd: real, returnsStd: real): (t: ManagerState)
    ensures t.highestPrice == s.highestPrice && t.lowestPrice == s.lowestPrice
    ensures t.currentStop == s.currentStop && t.currentTarget == s.currentTarget
    ensures t.trailingActivated == s.trailingActivated
    ensures t.initialPrice == s.initialPrice && t.side == s.side
  {
    IndicatorStep(cfg, HistoryStep(cfg, s, high, low, close, logReturn), priceStd, returnsStd)
  }

  /** The history bounds every update keeps. */
  predicate Bounded(cfg: ManagerConfig, s: ManagerState)
  {
    |s.highPrices| <= cfg.atrPeriod && |s.lowPrices| <= cfg.atrPeriod &&
    |s.logReturns| <= cfg.volatilityWindow && |s.priceHistory| <= HistoryCap(cfg)
  }

  /** A new manager's histories are within their maxlen. */
  lemma InitialBounded(cfg: ManagerConfig, initialPrice: real, side: string)
    ensures Bounded(cfg, Initial(cfg, initialPrice, side))
  {
  }

  /** Every update keeps the histories within their maxlen. */
  lemma VolatilityStepBounded(cfg: ManagerConfig, s: ManagerState, high: real, low: real, close: real,
                              logReturn: real, priceStd: real, returnsStd: real)
    requires Bounded(cfg, s)
    ensures Bounded(cfg, VolatilityStep(cfg, s, high, low, close, logReturn, priceStd, returnsStd))
  {
    var h := HistoryStep(cfg, s, high, low, close, logReturn);
    assert Bounded(cfg, h);
  }

  /**
   * An update keeps the ATR non-negative, and with a non-negative band
   * multiplier and standard deviation keeps the lower band at or below the
   * upper one.
   */
  lemma IndicatorStepSound(cfg: ManagerConfig, s: ManagerState, priceStd: real, returnsStd: real)
    requires s.atr.Some? ==> s.atr.value >= 0.0
    requires s.bollingerLower <= s.bollingerUpper
    requires cfg.bollingerStd >= 0.0 && priceStd >= 0.0
    ensures var t := IndicatorStep(cfg, s, priceStd, returnsStd);
            (t.atr.Some? ==> t.atr.value >= 0.0) && t.bollingerLower <= t.bollingerUpper
  {
    if |s.priceHistory| >= 2 {
      AtrNonNegative(s.priceHistory, s.highPrices, s.lowPrices);
      MulNonNegative(cfg.bollingerStd, priceStd);
    }
  }

  // ---------------------------------------------------------------------------
  // calculate_volatility_based_stops

  /** Python truthiness of the four indicators the weighted stop needs. */
  predicate IndicatorsReady(s: ManagerState)
  {
    s.atr.Some? && s.atr.value != 0.0 && s.bollingerUpper != 0.0 && s.bollingerLower != 0.0 &&
    s.historicalVolatility != 0.0
  }

  /** 0.4 ATR + 0.3 half band width + 0.3 of the price scaled by the daily volatility. */
  function WeightedVolatilityStop(s: ManagerState, price: real): real
    requires s.atr.Some?
  {
    0.4 * s.atr.value + 0.3 * (s.bollingerUpper - s.bollingerLower) / 2.0
      + 0.3 * (price * s.historicalVolatility / Sqrt252)
  }

  /**
   * `calculate_volatility_based_stops(price)`: 1 % of the price while any
   * indicator is falsy; otherwise TRAILING_STOP_VALUE for type "fixed", the
   * weighted volatility stop for "atr", and TRAILING_STOP_VALUE percent of
   * the price for any other type.
   */
  function StopDistance(cfg: ManagerConfig, s: ManagerState, price: real): (r: real)
    // non-negative at a non-negative price when the ATR and the historical
    // volatility are non-negative, the bands are ordered and
    // TRAILING_STOP_VALUE is non-negative
    ensures (price >= 0.0 && cfg.trailingStopValue >= 0.0 && (s.atr.Some? ==> s.atr.value >= 0.0) &&
             s.bollingerLower <= s.bollingerUpper && s.historicalVolatility >= 0.0) ==> r >= 0.0
  {
    if !IndicatorsReady(s) then price * 0.01
    else if cfg.trailingStopType == "fixed" then cfg.trailingStopValue
    else if cfg.trailingStopType == "atr" then
      MulNonNegative(price, s.historicalVolatility);
      WeightedVolatilityStop(s, price)
    else
      MulNonNegative(price, cfg.trailingStopValue / 100.0);
      price * (cfg.trailingStopValue / 100.0)
  }

  // ---------------------------------------------------------------------------
  // calculate_dynamic_levels

  /** The favourable move since entry as a fraction of the entry price. */
  function PriceMovement(s: ManagerState, price: real): (m: real)
    requires s.initialPrice != 0.0
    ensures s.side == "BUY" ==> m * s.initialPrice == price - s.initialPrice
    ensures s.side != "BUY" ==> m * s.initialPrice == s.initialPrice - price
  {
    if s.side == "BUY" then (price - s.initialPrice) / s.initialPrice
    else (s.initialPrice - price) / s.initialPrice
  }

  /** PROFIT_TAKING_TYPE "fixed": MAX_PROFIT_MULTIPLIER percent of the price; otherwise that multiple of the stop distance. */
  function ProfitDistance(cfg: ManagerConfig, price: real, stopDistance: real): real
  {
    if cfg.profitTakingType == "fixed" then price * (cfg.maxProfitMultiplier / 100.0)
    else stopDistance * cfg.maxProfitMultiplier
  }

  /** The new stop: trailing from the price after activation, from the entry before it. */
  function NextStop(s: ManagerState, price: real, trailing: bool, stopDistance: real): real
  {
    if s.side == "BUY" then
      if trailing then Max(price - stopDistance, s.currentStop) else s.initialPrice - stopDistance
    else if trailing then
      if s.currentStop == 0.0 then price + stopDistance else Min(price + stopDistance, s.currentStop)
    else s.initialPrice + stopDistance
  }

  /**
   * The level part of `calculate_dynamic_levels`, on the state whose
   * indicators were just updated: move the side's extreme, activate trailing
   * once the favourable move reaches TRAILING_ACTIVATION_PCT, then set the
   * stop and the target on either side of the price.
   */
  function AdjustLevels(cfg: ManagerConfig, v: ManagerState, price: real): (t: ManagerState)
    requires v.initialPrice != 0.0
    ensures t == v.(highestPrice := t.highestPrice, lowestPrice := t.lowestPrice,
                    trailingActivated := t.trailingActivated, currentStop := t.currentStop,
                    currentTarget := t.currentTarget)
  {
    var trailing := v.trailingActivated || PriceMovement(v, price) >= cfg.trailingActivationPct;
    var distance := StopDistance(cfg, v, price);
    var profit := ProfitDistance(cfg, price, distance);
    v.(highestPrice := if v.side == "BUY" then Max(v.highestPrice, price) else v.highestPrice,
       lowestPrice := if v.side == "BUY" then v.lowestPrice else Min(v.lowestPrice, price),
       trailingActivated := trailing,
       currentStop := NextStop(v, price, trailing, distance),
       currentTarget := Some(if v.side == "BUY" then price + profit else price - profit))
  }

  /** `calculate_dynamic_levels(price, high, low)`: the indicator update, then the level adjustment. */
  function LevelsStep(cfg: ManagerConfig, s: ManagerState, price: real, high: real, low: real,
                      logReturn: real, priceStd: real, returnsStd: real): ManagerState
    requires s.initialPrice != 0.0
  {
    AdjustLevels(cfg, VolatilityStep(cfg, s, high, low, price, logReturn, priceStd, returnsStd), price)
  }

  /**
   * A BUY's highest price never falls and a SELL's lowest price never rises;
   * the other extreme is left alone; each extreme bounds the price just seen.
   */
  lemma ExtremesMoveOneWay(cfg: ManagerConfig, s: ManagerState, price: real, high: real, low: real,
                           logReturn: real, priceStd: real, returnsStd: real)
    requires s.initialPrice != 0.0
    ensures var t := LevelsStep(cfg, s, price, high, low, logReturn, priceStd, returnsStd);
            (s.side == "BUY" ==> t.highestPrice >= s.highestPrice && t.highestPrice >= price &&
                                 t.lowestPrice == s.lowestPrice) &&
            (s.side != "BUY" ==> t.lowestPrice <= s.lowestPrice && t.lowestPrice <= price &&
                                 t.highestPrice == s.highestPrice)
  {
  }

  /** Trailing, once on, stays on; it turns on exactly when the favourable move reaches the threshold. */
  lemma TrailingSticky(cfg: ManagerConfig, s: ManagerState, price: real, high: real, low: real,
                       logReturn: real, priceStd: real, returnsStd: real)
    requires s.initialPrice != 0.0
    ensures var t := LevelsStep(cfg, s, price, high, low, logReturn, priceStd, returnsStd);
            (s.trailingActivated ==> t.trailingActivated) &&
            (t.trailingActivated <==> s.trailingActivated || PriceMovement(s, price) >= cfg.trailingActivationPct)
  {
  }

  /**
   * The stop levels: before activation the entry price minus (BUY) or plus
   * (SELL) the stop distance; after activation a BUY stop never decreases and
   * a non-zero SELL stop never increases.
   */
  lemma StopRatchet(cfg: ManagerConfig, s: ManagerState, price: real, high: real, low: real,
                    logReturn: real, priceStd: real, returnsStd: real)
    requires s.initialPrice != 0.0
    ensures var t := LevelsStep(cfg, s, price, high, low, logReturn, priceStd, returnsStd);
            var v := VolatilityStep(cfg, s, high, low, price, logReturn, priceStd, returnsStd);
            var d := StopDistance(cfg, v, price);
            (!t.trailingActivated && s.side == "BUY" ==> t.currentStop == s.initialPrice - d) &&
            (!t.trailingActivated && s.side != "BUY" ==> t.currentStop == s.initialPrice + d) &&
            (t.trailingActivated && s.side == "BUY" ==> t.currentStop >= s.currentStop && t.currentStop >= price - d) &&
            (t.trailingActivated && s.side != "BUY" && s.currentStop != 0.0 ==>
               t.currentStop <= s.currentStop && t.currentStop <= price + d)
  {
  }

  /**
   * The target is the price plus (BUY) or minus (SELL) the profit distance,
   * which is MAX_PROFIT_MULTIPLIER times the stop distance when dynamic and
   * MAX_PROFIT_MULTIPLIER percent of the price when fixed.
   */
  lemma TargetFormula(cfg: ManagerConfig, s: ManagerState, price: real, high: real, low: real,
                      logReturn: real, priceStd: real, returnsStd: real)
    requires s.initialPrice != 0.0
    ensures var t := LevelsStep(cfg, s, price, high, low, logReturn, priceStd, returnsStd);
            var v := VolatilityStep(cfg, s, high, low, price, logReturn, priceStd, returnsStd);
            var d := StopDistance(cfg, v, price);
            var p := if cfg.profitTakingType == "fixed" then price * cfg.maxProfitMultiplier / 100.0
                     else d * cfg.maxProfitMultiplier;
            t.currentTarget.Some? &&
            (s.side == "BUY" ==> t.currentTarget.value == price + p) &&
            (s.side != "BUY" ==> t.currentTarget.value == price - p)
  {
  }

  // ---------------------------------------------------------------------------
  // calculate_basic_levels

  /**
   * `calculate_basic_levels(price)`: a stop half the move since entry away
   * from the price, never looser than the current stop (or 1 % of the price
   * when there is none), and a target MIN_PROFIT_MULTIPLIER half-moves away.
   */
  function BasicLevels(cfg: ManagerConfig, s: ManagerState, price: real): (r: (real, real))
    // the stop is never looser than an existing stop and never further than
    // half the move from the price; with a non-negative multiplier the
    // target lies on the profitable side of the price
    ensures var half := Abs(price - s.initialPrice) * 0.5;
            (s.side == "BUY" ==> r.0 >= price - half &&
                                 (s.currentStop != 0.0 ==> r.0 >= s.currentStop) &&
                                 (cfg.minProfitMultiplier >= 0.0 ==> r.1 >= price)) &&
            (s.side != "BUY" ==> r.0 <= price + half &&
                                 (s.currentStop != 0.0 ==> r.0 <= s.currentStop) &&
                                 (cfg.minProfitMultiplier >= 0.0 ==> r.1 <= price))
  {
    var basicStop := Abs(price - s.initialPrice) * 0.5;
    MulNonNegative(basicStop, cfg.minProfitMultiplier);
    if s.side == "BUY" then
      (Max(price - basicStop, if s.currentStop != 0.0 then s.currentStop else price * 0.99),
       price + basicStop * cfg.minProfitMultiplier)
    else
      (Min(price + basicStop, if s.currentStop != 0.0 then s.currentStop else price * 1.01),
       price - basicStop * cfg.minProfitMultiplier)
  }

  // ---------------------------------------------------------------------------
  // should_exit

  /** Both the stop and the target are truthy. */
  predicate LevelsSet(s: ManagerState)
  {
    s.currentStop != 0.0 && s.currentTarget.Some? && s.currentTarget.value != 0.0
  }

  /** The relative retreat from the side's best price. */
  function Drawdown(s: ManagerState, price: real): real
    requires s.side == "BUY" ==> s.highestPrice != 0.0
    requires s.side != "BUY" ==> s.lowestPrice != 0.0
  {
    if s.side == "BUY" then (s.highestPrice - price) / s.highestPrice
    else (price - s.lowestPrice) / s.lowestPrice
  }

  /** The historical volatility is truthy and above VOLATILITY_STD_MULTIPLIER times the mean return. */
  predicate VolatilityExpanded(cfg: ManagerConfig, s: ManagerState)
  {
    s.historicalVolatility != 0.0 && |s.logReturns| > 0 &&
    s.historicalVolatility > cfg.volatilityStdMultiplier * Mean(s.logReturns)
  }

  /**
   * `should_exit(price)`: no exit until both levels are set; then the first
   * of the stop, the target, the Bollinger band on the adverse side, the
   * maximum drawdown and the volatility expansion that holds.
   */
  function ShouldExit(cfg: ManagerConfig, s: ManagerState, price: real): (r: (bool, Option<ManagerExit>))
    requires LevelsSet(s) && s.side == "BUY" ==> s.highestPrice != 0.0
    requires LevelsSet(s) && s.side != "BUY" ==> s.lowestPrice != 0.0
    ensures r.0 <==> r.1.Some?
    ensures !LevelsSet(s) ==> !r.0
    ensures r.1 == Some(TrailingStop) <==>
              LevelsSet(s) && (if s.side == "BUY" then price <= s.currentStop else price >= s.currentStop)
    ensures r.1 == Some(TakeProfit) ==>
              LevelsSet(s) && (if s.side == "BUY" then price >= s.currentTarget.value else price <= s.currentTarget.value)
    ensures r.1 == Some(VolatilityBreakdown) ==> s.side == "BUY" && price < s.bollingerLower
    ensures r.1 == Some(VolatilityBreakout) ==> s.side != "BUY" && price > s.bollingerUpper
    ensures r.1 == Some(MaxDrawdown) ==> Drawdown(s, price) >= cfg.maxDrawdownPct
    ensures r.1 == Some(VolatilityExpansion) ==> VolatilityExpanded(cfg, s)
  {
    if !LevelsSet(s) then (false, None)
    else
      var drawdown := Drawdown(s, price);
      if s.side == "BUY" && price <= s.currentStop then (true, Some(TrailingStop))
      else if s.side == "BUY" && price >= s.currentTarget.value then (true, Some(TakeProfit))
      else if s.side == "BUY" && s.bollingerLower != 0.0 && price < s.bollingerLower then (true, Some(VolatilityBreakdown))
      else if s.side != "BUY" && price >= s.currentStop then (true, Some(TrailingStop))
      else if s.side != "BUY" && price <= s.currentTarget.value then (true, Some(TakeProfit))
      else if s.side != "BUY" && s.bollingerUpper != 0.0 && price > s.bollingerUpper then (true, Some(VolatilityBreakout))
      else if drawdown >= cfg.maxDrawdownPct then (true, Some(MaxDrawdown))
      else if VolatilityExpanded(cfg, s) then (true, Some(VolatilityExpansion))
      else (false, None)
  }

  /**
   * The checks are tried in a fixed order: a later reason is reported only
   * when every earlier condition fails.
   */
  lemma ShouldExitOrder(cfg: ManagerConfig, s: ManagerState, price: real)
    requires LevelsSet(s) && s.side == "BUY" ==> s.highestPrice != 0.0
    requires LevelsSet(s) && s.side != "BUY" ==> s.lowestPrice != 0.0
    ensures var r := ShouldExit(cfg, s, price);
            var stopHit := if s.side == "BUY" then price <= s.currentStop else price >= s.currentStop;
            var targetHit := LevelsSet(s) &&
                             (if s.side == "BUY" then price >= s.currentTarget.value else price <= s.currentTarget.value);
            var bandHit := if s.side == "BUY" then s.bollingerLower != 0.0 && price < s.bollingerLower
                           else s.bollingerUpper != 0.0 && price > s.bollingerUpper;
            (r.1 == Some(TakeProfit) <==> LevelsSet(s) && !stopHit && targetHit) &&
            (r.1 in {Some(VolatilityBreakdown), Some(VolatilityBreakout)} <==>
               LevelsSet(s) && !stopHit && !targetHit && bandHit) &&
            (r.1 == Some(MaxDrawdown) <==>
               LevelsSet(s) && !stopHit && !targetHit && !bandHit && Drawdown(s, price) >= cfg.maxDrawdownPct) &&
            (r.1 == Some(VolatilityExpansion) <==>
               LevelsSet(s) && !stopHit && !targetHit && !bandHit && Drawdown(s, price) < cfg.maxDrawdownPct &&
               VolatilityExpanded(cfg, s))
  {
  }

  /** A freshly built manager has no target, so it never exits before its first level update. */
  lemma NoExitBeforeLevels(cfg: ManagerConfig, initialPrice: real, side: string, price: real)
    ensures ShouldExit(cfg, Initial(cfg, initialPrice, side), price) == (false, None)
  {
  }

  // ---------------------------------------------------------------------------
  // The manager object

  class TradeManager {
    const cfg: ManagerConfig
    const initialPrice: real
    const side: string
    var highestPrice: real
    var lowestPrice: real
    var priceHistory: seq<real>
    var highPrices: seq<real>
    var lowPrices: seq<real>
    var logReturns: seq<real>
    var atr: Option<real>
    var bollingerUpper: real
    var bollingerLower: real
    var historicalVolatility: real
    var currentStop: real
    var currentTarget: Option<real>
    var trailingActivated: bool

    function State(): ManagerState
      reads this
    {
      ManagerState(initialPrice, side, highestPrice, lowestPrice, priceHistory, highPrices, lowPrices, logReturns,
                   atr, bollingerUpper, bollingerLower, historicalVolatility, currentStop, currentTarget,
                   trailingActivated)
    }

    constructor (cfg: ManagerConfig, initialPrice: real, side: string)
      ensures this.cfg == cfg
      ensures State() == Initial(cfg, initialPrice, side)
    {
      this.cfg := cfg;
      this.initialPrice := initialPrice;
      this.side := Upper(side);
      highestPrice := initialPrice;
      lowestPrice := initialPrice;
      priceHistory := DequePush([], initialPrice, HistoryCap(cfg));
      highPrices := DequePush([], initialPrice, cfg.atrPeriod);
      lowPrices := DequePush([], initialPrice, cfg.atrPeriod);
      logReturns := DequePush([], 0.0, cfg.volatilityWindow);
      atr := Some(0.0);
      bollingerUpper := initialPrice;
      bollingerLower := initialPrice;
      historicalVolatility := 0.0;
      currentStop := initialPrice * (1.0 - cfg.volatilityStdMultiplier * 0.001);
      currentTarget := None;
      trailingActivated := false;
    }

    /** `update_volatility_metrics(high, low, close)`, with the numpy values as parameters. */
    method UpdateVolatilityMetrics(high: real, low: real, close: real, logReturn: real, priceStd: real,
                                   returnsStd: real)
      modifies this
      ensures State() == VolatilityStep(cfg, old(State()), high, low, close, logReturn, priceStd, returnsStd)
    {
      UpdateHistories(high, low, close, logReturn);
      var newAtr := AverageTrueRangeOf(priceHistory, highPrices, lowPrices);
      RecomputeIndicators(newAtr, priceStd, returnsStd);
    }

    /** The appends and the trim that open `update_volatility_metrics`. */
    method UpdateHistories(high: real, low: real, close: real, logReturn: real)
      modifies this
      ensures var t := HistoryStep(cfg, old(State()), high, low, close, logReturn);
              priceHistory == t.priceHistory && highPrices == t.highPrices && lowPrices == t.lowPrices &&
              logReturns == t.logReturns
      ensures highestPrice == old(highestPrice) && lowestPrice == old(lowestPrice) && atr == old(atr)
      ensures bollingerUpper == old(bollingerUpper) && bollingerLower == old(bollingerLower)
      ensures historicalVolatility == old(historicalVolatility) && currentStop == old(currentStop)
      ensures currentTarget == old(currentTarget) && trailingActivated == old(trailingActivated)
    {
      var closes := DequePush(priceHistory, close, HistoryCap(cfg));
      if |closes| >= 2 {
        logReturns := DequePush(logReturns, logReturn, cfg.volatilityWindow);
      }
      if |closes| > TrimLength(cfg) {
        closes := closes[1..];
      }
      highPrices := DequePush(highPrices, high, cfg.atrPeriod);
      lowPrices := DequePush(lowPrices, low, cfg.atrPeriod);
      priceHistory := closes;
    }

    /** The indicator recomputation that ends `update_volatility_metrics`, skipped below two closes. */
    method RecomputeIndicators(newAtr: Option<real>, priceStd: real, returnsStd: real)
      requires newAtr == AverageTrueRange(priceHistory, highPrices, lowPrices)
      modifies this
      ensures var t := IndicatorStep(cfg, old(State()), priceStd, returnsStd);
              atr == t.atr && bollingerUpper == t.bollingerUpper && bollingerLower == t.bollingerLower &&
              historicalVolatility == t.historicalVolatility
      ensures State() == old(State()).(atr := atr, bollingerUpper := bollingerUpper, bollingerLower := bollingerLower,
                                       historicalVolatility := historicalVolatility)
    {
      if |priceHistory| >= 2 {
        var upper, lower, volatility := bollingerUpper, bollingerLower, historicalVolatility;
        if |priceHistory| >= cfg.bollingerPeriod {
          var sma := BandMiddle(cfg, priceHistory);
          upper := sma + BandWidth(cfg, priceStd);
          lower := sma - BandWidth(cfg, priceStd);
        }
        if |logReturns| >= cfg.volatilityWindow {
          volatility := Annualized(returnsStd);
        }
        atr, bollingerUpper, bollingerLower, historicalVolatility := newAtr, upper, lower, volatility;
      }
    }



    /** `calculate_dynamic_levels(price, high, low)`: returns the new stop and target. */
    method CalculateDynamicLevels(price: real, high: real, low: real, logReturn: real, priceStd: real,
                                  returnsStd: real)
      returns (stop: real, target: Option<real>)
      requires initialPrice != 0.0
      modifies this
      ensures State() == LevelsStep(cfg, old(State()), price, high, low, logReturn, priceStd, returnsStd)
      ensures stop == currentStop && target == currentTarget
    {
      UpdateVolatilityMetrics(high, low, price, logReturn, priceStd, returnsStd);
      stop, target := MoveLevels(price);
    }

    /** The part of `calculate_dynamic_levels` after the metrics update: extremes, activation, stop, target. */
    method MoveLevels(price: real) returns (stop: real, target: Option<real>)
      requires initialPrice != 0.0
      modifies this
      ensures var t := AdjustLevels(cfg, old(State()), price);
              highestPrice == t.highestPrice && lowestPrice == t.lowestPrice &&
              trailingActivated == t.trailingActivated && currentStop == t.currentStop &&
              currentTarget == t.currentTarget
      ensures State() == old(State()).(highestPrice := highestPrice, lowestPrice := lowestPrice,
                                       trailingActivated := trailingActivated, currentStop := currentStop,
                                       currentTarget := currentTarget)
      ensures stop == currentStop && target == currentTarget
    {
      var movement := PriceMovement(State(), price);
      var distance := StopDistance(cfg, State(), price);
      var profit := ProfitDistance(cfg, price, distance);
      var trailing := trailingActivated || movement >= cfg.trailingActivationPct;
      stop := NextStop(State(), price, trailing, distance);
      if side == "BUY" {
        highestPrice := Max(highestPrice, price);
        target := Some(price + profit);
      } else {
        lowestPrice := Min(lowestPrice, price);
        target := Some(price - profit);
      }
      trailingActivated, currentStop, currentTarget := trailing, stop, target;
    }
  }
}
