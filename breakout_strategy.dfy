/**
 * The breakout strategy of strategy/breakout_strategy.py as it stands: a
 * stateless comparison of a candle's close with its open.
 */
module BreakoutStrategy {
  import opened Common

  /**
   * `generate_signal(candle)`: BUY exactly on a bullish candle, SELL exactly
   * on a bearish one, nothing exactly when the close equals the open.
   */
  function BreakoutSignal(c: Candle): (r: Option<Trade>)
    ensures r == Some(Buy) <==> c.close > c.open
    ensures r == Some(Sell) <==> c.close < c.open
    ensures r == None <==> c.close == c.open
  {
    if c.close > c.open then Some(Buy)
    else if c.close < c.open then Some(Sell)
    else None
  }

  /** The signal reads the close and the open alone: candles that agree on them get the same signal. */
  lemma BreakoutSignalOpenClose(c: Candle, d: Candle)
    requires c.close == d.close && c.open == d.open
    ensures BreakoutSignal(c) == BreakoutSignal(d)
  {
  }
}
