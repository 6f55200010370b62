/**
 * The momentum strategy of strategy/momentum_strategy.py: the last
 * `lookback` closes and volumes are kept in bounded deques, and once they are
 * full the percentage change from the oldest to the newest close, the newest
 * volume against the mean of the others and the last close-to-close move
 * decide between BUY, SELL and no signal.
 */
module MomentumStrategy {
  import opened Common

  /** The percentage move the signal needs in either direction. */
  const MinChangePct: real := 0.05

  /** `(prices[-1] - prices[0]) / prices[0] * 100`. */
  function PriceChangePct(prices: seq<real>): real
    requires |prices| >= 1 && prices[0] != 0.0
  {
    (prices[|prices| - 1] - prices[0]) / prices[0] * 100.0
  }

  /** `volumes[-1] > sum(volumes[:-1]) / (len(volumes) - 1)`. */
  predicate VolumeIncreasing(volumes: seq<real>)
    requires |volumes| >= 2
  {
    volumes[|volumes| - 1] > Mean(volumes[..|volumes| - 1])
  }

  /**
   * The decision on full buffers. For a positive oldest close, BUY is exactly
   * a rise over the buffer of more than 0.05 % of the oldest close with rising
   * volume and a rising last close, and SELL the mirror; a negative oldest
   * close flips the sign of the percentage, so the threshold tests swap.
   */
  function MomentumSignal(prices: seq<real>, volumes: seq<real>): (r: Option<Trade>)
    requires |prices| >= 2 && |volumes| >= 2 && prices[0] != 0.0
    ensures var n, first := |prices|, prices[0];
            var move, bound := prices[n - 1] - first, MinChangePct / 100.0 * first;
            (r == Some(Buy) <==>
               (if first > 0.0 then move > bound else move < bound) &&
               VolumeIncreasing(volumes) && prices[n - 1] > prices[n - 2]) &&
            (r == Some(Sell) <==>
               (if first > 0.0 then move < -bound else move > -bound) &&
               VolumeIncreasing(volumes) && prices[n - 1] < prices[n - 2])
  {
    PriceChangePctScaled(prices, MinChangePct);
    var pct := PriceChangePct(prices);
    var recentChange := prices[|prices| - 1] - prices[|prices| - 2];
    if pct > MinChangePct && VolumeIncreasing(volumes) && recentChange > 0.0 then Some(Buy)
    else if pct < -MinChangePct && VolumeIncreasing(volumes) && recentChange < 0.0 then Some(Sell)
    else None
  }

  /**
   * The percentage test compares the whole move with bound % of the oldest
   * close: directly for a positive oldest close, reversed for a negative one.
   */
  lemma PriceChangePctScaled(prices: seq<real>, bound: real)
    requires |prices| >= 1 && prices[0] != 0.0
    ensures var move, first := prices[|prices| - 1] - prices[0], prices[0];
            first > 0.0 ==>
              (PriceChangePct(prices) > bound <==> move > bound / 100.0 * first) &&
              (PriceChangePct(prices) < -bound <==> move < -bound / 100.0 * first)
    ensures var move, first := prices[|prices| - 1] - prices[0], prices[0];
            first < 0.0 ==>
              (PriceChangePct(prices) > bound <==> move < bound / 100.0 * first) &&
              (PriceChangePct(prices) < -bound <==> move > -bound / 100.0 * first)
  {
    var move, first := prices[|prices| - 1] - prices[0], prices[0];
    var q := move / first;
    assert q * first == move;
    assert PriceChangePct(prices) == q * 100.0;
    assert PriceChangePct(prices) > bound <==> q > bound / 100.0;
    assert PriceChangePct(prices) < -bound <==> q < -bound / 100.0;
    if first > 0.0 {
      MulOrder(q, bound / 100.0, first);
      MulOrder(q, -bound / 100.0, first);
    } else {
      assert q * -first == -move;
      assert bound / 100.0 * -first == -(bound / 100.0 * first);
      assert -bound / 100.0 * -first == bound / 100.0 * first;
      MulOrder(q, bound / 100.0, -first);
      MulOrder(q, -bound / 100.0, -first);
    }
  }

  /** `MomentumStrategy(lookback)`: the two deques of `lookback` items. */
  class Strategy {
    const lookback: nat
    var priceHistory: seq<real>
    var volumeHistory: seq<real>

    /** The two deques are appended together and never exceed `lookback`. */
    predicate Valid()
      reads this
    {
      |priceHistory| == |volumeHistory| <= lookback
    }

    constructor (lookback: nat)
      ensures Valid() && this.lookback == lookback && priceHistory == [] && volumeHistory == []
    {
      this.lookback := lookback;
      priceHistory := [];
      volumeHistory := [];
    }

    /**
     * `generate_signal(candle)`. A lookback below two makes every call fail
     * (an empty list index or a division by zero), and so does a zero oldest
     * close once the buffer is full.
     */
    method GenerateSignal(candle: Candle) returns (signal: Option<Trade>)
      requires Valid() && lookback >= 2
      requires var p := DequePush(priceHistory, candle.close, lookback); |p| >= lookback ==> p[0] != 0.0
      modifies this
      ensures Valid()
      ensures priceHistory == DequePush(old(priceHistory), candle.close, lookback)
      ensures volumeHistory == DequePush(old(volumeHistory), candle.volume, lookback)
      ensures signal == if |priceHistory| < lookback then None else MomentumSignal(priceHistory, volumeHistory)
    {
      priceHistory := DequePush(priceHistory, candle.close, lookback);
      volumeHistory := DequePush(volumeHistory, candle.volume, lookback);
      if |priceHistory| < lookback {
        return None;
      }
      var prices, volumes := priceHistory, volumeHistory;
      var priceChangePct := (prices[|prices| - 1] - prices[0]) / prices[0] * 100.0;
      var volumeIncreasing := volumes[|volumes| - 1] > Sum(volumes[..|volumes| - 1]) / (|volumes| - 1) as real;
      var recentChange := prices[|prices| - 1] - prices[|prices| - 2];
      assert priceChangePct == PriceChangePct(prices);
      assert volumeIncreasing == VolumeIncreasing(volumes);
      signal := None;
      if priceChangePct > MinChangePct && volumeIncreasing && recentChange > 0.0 {
        signal := Some(Buy);
      } else if priceChangePct < -MinChangePct && volumeIncreasing && recentChange < 0.0 {
        signal := Some(Sell);
      }
    }
  }
}
