/**
 * The price-action strategy of strategy/price_action_strategy.py: it
 * remembers the previous close, and gives BUY on a strong bullish candle that
 * closes above it and SELL on the bearish mirror image.
 */
module PriceActionStrategy {
  import opened Common

  /** The body must exceed this share of the range. */
  const MinBodyRatio: real := 0.3
  /** The close-to-close move must exceed this percentage. */
  const MinChangePct: real := 0.01

  /** `body / candle_range if candle_range > 0 else 0`. */
  function BodyRatio(c: Candle): real
  {
    if c.high - c.low > 0.0 then Abs(c.close - c.open) / (c.high - c.low) else 0.0
  }

  /** `price_change / prev_close * 100`. */
  function ChangePct(c: Candle, prevClose: real): real
    requires prevClose != 0.0
  {
    (c.close - prevClose) / prevClose * 100.0
  }

  /**
   * The signal of `generate_signal` given the remembered close: nothing on
   * the first call or a zero-range candle; BUY exactly on a bullish candle
   * with a positive range, a body above 30 % of it, closing above the
   * previous close by more than 0.01 % of its size; SELL on the mirror.
   */
  function PriceActionSignal(prevClose: Option<real>, c: Candle): (r: Option<Trade>)
    requires prevClose.Some? ==> prevClose.value != 0.0
    ensures prevClose.None? || c.high == c.low ==> r == None
    ensures r == Some(Buy) <==>
              prevClose.Some? && c.close > c.open && c.high > c.low &&
              c.close - c.open > MinBodyRatio * (c.high - c.low) &&
              c.close - prevClose.value > MinChangePct / 100.0 * Abs(prevClose.value)
    ensures r == Some(Sell) <==>
              prevClose.Some? && c.close < c.open && c.high > c.low &&
              c.open - c.close > MinBodyRatio * (c.high - c.low) &&
              prevClose.value - c.close > MinChangePct / 100.0 * Abs(prevClose.value)
  {
    if prevClose.None? then None
    else if c.high - c.low == 0.0 then None
    else
      var change := c.close - prevClose.value;
      var pct := ChangePct(c, prevClose.value);
      BodyRatioScaled(c);
      ChangePctScaled(c, prevClose.value);
      if c.close > c.open && change > 0.0 && BodyRatio(c) > MinBodyRatio && Abs(pct) > MinChangePct then Some(Buy)
      else if c.close < c.open && change < 0.0 && BodyRatio(c) > MinBodyRatio && Abs(pct) > MinChangePct then Some(Sell)
      else None
  }

  /** The ratio test means a positive range with the body above 30 % of it. */
  lemma BodyRatioScaled(c: Candle)
    ensures BodyRatio(c) > MinBodyRatio <==> c.high > c.low && Abs(c.close - c.open) > MinBodyRatio * (c.high - c.low)
  {
    if c.high - c.low > 0.0 {
      DivOrder(Abs(c.close - c.open), c.high - c.low, MinBodyRatio);
    }
  }

  /** The percentage test, with the direction of the move, compares the move with 0.01 % of the previous close's size. */
  lemma ChangePctScaled(c: Candle, prev: real)
    requires prev != 0.0
    ensures c.close > prev && Abs(ChangePct(c, prev)) > MinChangePct <==> c.close - prev > MinChangePct / 100.0 * Abs(prev)
    ensures c.close < prev && Abs(ChangePct(c, prev)) > MinChangePct <==> prev - c.close > MinChangePct / 100.0 * Abs(prev)
  {
    var d := c.close - prev;
    var q := d / prev;
    assert q * prev == d;
    assert ChangePct(c, prev) == q * 100.0;
    assert Abs(ChangePct(c, prev)) > MinChangePct <==> Abs(q) > MinChangePct / 100.0;
    var aq, ap, b := Abs(q), Abs(prev), MinChangePct / 100.0;
    AbsProduct(q, prev);
    assert aq * ap == Abs(d);
    ScaledThreshold(aq, ap, Abs(d), b);
    MulMonotone(0.0, b, ap);
  }

  /** For p > 0 and a · p = e: a exceeds b exactly when e exceeds b · p. */
  lemma ScaledThreshold(a: real, p: real, e: real, b: real)
    requires p > 0.0 && a * p == e
    ensures a > b <==> e > b * p
  {
    MulOrder(a, b, p);
  }

  /** |a| · |b| = |a · b|. */
  lemma AbsProduct(a: real, b: real)
    ensures Abs(a) * Abs(b) == Abs(a * b)
  {
    if a < 0.0 {
      MulMonotone(a, 0.0, Abs(b));
    } else {
      MulMonotone(0.0, a, Abs(b));
    }
    if b < 0.0 {
      assert Abs(a) * Abs(b) == -(Abs(a) * b);
    }
    if a < 0.0 {
      assert Abs(a) * Abs(b) == -(a * Abs(b));
    }
  }

  /** `PriceActionStrategy`: the close of the previous candle, None before the first. */
  class Strategy {
    var prevClose: Option<real>

    constructor ()
      ensures prevClose == None
    {
      prevClose := None;
    }

    /**
     * `generate_signal(candle)`. The percentage change is computed before
     * the zero-range check, so a zero previous close fails on every later
     * call.
     */
    method GenerateSignal(candle: Candle) returns (signal: Option<Trade>)
      requires prevClose.Some? ==> prevClose.value != 0.0
      modifies this
      ensures prevClose == Some(candle.close)
      ensures signal == PriceActionSignal(old(prevClose), candle)
    {
      if prevClose.None? {
        prevClose := Some(candle.close);
        return None;
      }
      signal := None;
      var body := Abs(candle.close - candle.open);
      var candleRange := candle.high - candle.low;
      var priceChange := candle.close - prevClose.value;
      var priceChangePct := priceChange / prevClose.value * 100.0;
      if candleRange == 0.0 {
        prevClose := Some(candle.close);
        return None;
      }
      var bodyRatio := if candleRange > 0.0 then body / candleRange else 0.0;
      if candle.close > candle.open && priceChange > 0.0 && bodyRatio > MinBodyRatio && Abs(priceChangePct) > MinChangePct {
        signal := Some(Buy);
      } else if candle.close < candle.open && priceChange < 0.0 && bodyRatio > MinBodyRatio && Abs(priceChangePct) > MinChangePct {
        signal := Some(Sell);
      }
      prevClose := Some(candle.close);
    }
  }
}
