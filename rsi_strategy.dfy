/**
 * The RSI strategy of strategy/rsi_strategy.py. Each candle's close and
 * volume are pushed into bounded deques (rsi_period + 1 closes, 5 volumes);
 * the RSI of the buffered closes is compared with the RSI of the previous
 * call, and a BUY or SELL is given when it crosses back over the oversold or
 * overbought level with confirming volume.
 */
module RsiStrategy {
  import opened Common

  /** `deque(maxlen=5)` of volumes. */
  const VolumeWindow: nat := 5
  /** Fewer buffered volumes than this never confirm. */
  const MinVolumes: nat := 3
  /** The current volume must exceed the average of the earlier ones by 20 %. */
  const VolumeFactor: real := 1.2

  /** `np.diff` split into gains (negative deltas set to 0) and losses (positive deltas set to 0, then negated). */
  function Gains(prices: seq<real>): (r: seq<real>)
    requires |prices| >= 1
    ensures |r| == |prices| - 1
    ensures forall k :: 0 <= k < |r| ==> r[k] == Max(prices[k + 1] - prices[k], 0.0)
  {
    seq(|prices| - 1, k requires 0 <= k < |prices| - 1 => Max(prices[k + 1] - prices[k], 0.0))
  }

  function Losses(prices: seq<real>): (r: seq<real>)
    requires |prices| >= 1
    ensures |r| == |prices| - 1
    ensures forall k :: 0 <= k < |r| ==> r[k] == -Min(prices[k + 1] - prices[k], 0.0)
  {
    seq(|prices| - 1, k requires 0 <= k < |prices| - 1 => -Min(prices[k + 1] - prices[k], 0.0))
  }

  /** `100 - 100 / (1 + avg_gain / avg_loss)`, or 100 when there is no average loss. */
  function RsiValue(avgGain: real, avgLoss: real): real
    requires avgGain >= 0.0 && avgLoss >= 0.0
  {
    if avgLoss == 0.0 then 100.0 else 100.0 - 100.0 / (1.0 + avgGain / avgLoss)
  }

  /**
   * `calculate_rsi()` on the buffered closes: None until rsi_period + 1
   * closes are held. Then it lies in [0, 100]; it is 100 exactly when no
   * close fell below the one before it, and 0 exactly when none rose and at
   * least one fell.
   */
  function Rsi(prices: seq<real>, period: nat): (r: Option<real>)
    requires period >= 1
    ensures r.None? <==> |prices| < period + 1
    ensures r.Some? ==>
              0.0 <= r.value <= 100.0 &&
              (r.value == 100.0 <==> forall k :: 0 <= k < |prices| - 1 ==> prices[k] <= prices[k + 1]) &&
              (r.value == 0.0 <==> (forall k :: 0 <= k < |prices| - 1 ==> prices[k] >= prices[k + 1]) &&
                                   exists k :: 0 <= k < |prices| - 1 && prices[k] > prices[k + 1])
  {
    if |prices| < period + 1 then None
    else
      var gains, losses := Gains(prices), Losses(prices);
      MeanZeroIffAllZero(gains);
      MeanZeroIffAllZero(losses);
      RsiValueRange(Mean(gains), Mean(losses));
      NoLossesIffRising(prices);
      NoGainsIffFalling(prices);
      Some(RsiValue(Mean(gains), Mean(losses)))
  }

  /** A sum of non-negative terms is zero exactly when every term is. */
  lemma {:induction false} SumZeroIffAllZero(s: seq<real>)
    requires forall k :: 0 <= k < |s| ==> s[k] >= 0.0
    ensures Sum(s) == 0.0 <==> forall k :: 0 <= k < |s| ==> s[k] == 0.0
  {
    if |s| > 0 {
      var init := s[..|s| - 1];
      SumZeroIffAllZero(init);
      SumNonNegative(init);
      if Sum(s) == 0.0 {
        forall k | 0 <= k < |s|
          ensures s[k] == 0.0
        {
          if k < |s| - 1 {
            assert s[k] == init[k];
          }
        }
      }
      if forall k :: 0 <= k < |s| ==> s[k] == 0.0 {
        assert forall k :: 0 <= k < |init| ==> init[k] == s[k];
      }
    }
  }

  /** The same for a mean. */
  lemma MeanZeroIffAllZero(s: seq<real>)
    requires |s| > 0 && forall k :: 0 <= k < |s| ==> s[k] >= 0.0
    ensures Mean(s) >= 0.0
    ensures Mean(s) == 0.0 <==> forall k :: 0 <= k < |s| ==> s[k] == 0.0
  {
    SumZeroIffAllZero(s);
    SumNonNegative(s);
  }

  /** For non-negative averages the value is in [0, 100]: 100 exactly without losses, 0 exactly without gains but with losses. */
  lemma RsiValueRange(avgGain: real, avgLoss: real)
    requires avgGain >= 0.0 && avgLoss >= 0.0
    ensures 0.0 <= RsiValue(avgGain, avgLoss) <= 100.0
    ensures RsiValue(avgGain, avgLoss) == 100.0 <==> avgLoss == 0.0
    ensures RsiValue(avgGain, avgLoss) == 0.0 <==> avgGain == 0.0 && avgLoss > 0.0
  {
    if avgLoss > 0.0 {
      var rs := avgGain / avgLoss;
      assert rs >= 0.0;
      assert rs == 0.0 <==> avgGain == 0.0;
      var q := 100.0 / (1.0 + rs);
      assert q * (1.0 + rs) == 100.0;
      assert 0.0 < q;
      if q > 100.0 {
        MulStrict(100.0, q, 1.0 + rs);
        MulMonotone(1.0, 1.0 + rs, 100.0);
      }
      assert q == 100.0 <==> rs == 0.0;
    }
  }

  /** No delta is a loss exactly when every close is at least the one before it. */
  lemma NoLossesIffRising(prices: seq<real>)
    requires |prices| >= 1
    ensures (forall k :: 0 <= k < |Losses(prices)| ==> Losses(prices)[k] == 0.0) <==>
            forall k :: 0 <= k < |prices| - 1 ==> prices[k] <= prices[k + 1]
  {
    var losses := Losses(prices);
    if !(forall k :: 0 <= k < |prices| - 1 ==> prices[k] <= prices[k + 1]) {
      var k :| 0 <= k < |prices| - 1 && prices[k] > prices[k + 1];
      assert losses[k] != 0.0;
    }
  }

  /** No delta is a gain exactly when every close is at most the one before it. */
  lemma NoGainsIffFalling(prices: seq<real>)
    requires |prices| >= 1
    ensures (forall k :: 0 <= k < |Gains(prices)| ==> Gains(prices)[k] == 0.0) <==>
            forall k :: 0 <= k < |prices| - 1 ==> prices[k] >= prices[k + 1]
  {
    var gains := Gains(prices);
    if !(forall k :: 0 <= k < |prices| - 1 ==> prices[k] >= prices[k + 1]) {
      var k :| 0 <= k < |prices| - 1 && prices[k] < prices[k + 1];
      assert gains[k] != 0.0;
    }
  }

  /**
   * `is_volume_confirming(current_volume)`: at least three buffered volumes
   * and the current one 20 % above the mean of the others, that is, the
   * current volume times the number of earlier ones exceeds 1.2 times their
   * total.
   */
  predicate VolumeConfirming(volumes: seq<real>, current: real)
    ensures VolumeConfirming(volumes, current) <==>
              |volumes| >= MinVolumes &&
              current * (|volumes| - 1) as real > VolumeFactor * Sum(volumes[..|volumes| - 1])
  {
    |volumes| >= MinVolumes &&
    var earlier := volumes[..|volumes| - 1];
    MeanScaled(earlier, current, VolumeFactor);
    current > Mean(earlier) * VolumeFactor
  }

  /** c > factor × mean(s) exactly when c × |s| > factor × sum(s). */
  lemma MeanScaled(s: seq<real>, c: real, factor: real)
    requires |s| > 0
    ensures c > Mean(s) * factor <==> c * |s| as real > factor * Sum(s)
  {
    var n := |s| as real;
    assert Mean(s) * n == Sum(s);
    assert Mean(s) * factor * n == factor * Sum(s);
    MulOrder(c, Mean(s) * factor, n);
  }

  /**
   * The signal of `generate_signal` from the previous and the current RSI:
   * BUY exactly on a confirmed crossing up through the oversold level, SELL
   * exactly on a confirmed crossing down through the overbought level that
   * is not also a BUY, and nothing while either RSI is unknown.
   */
  function RsiSignal(last: Option<real>, current: Option<real>, confirmed: bool, overbought: real, oversold: real): (r: Option<Trade>)
    ensures r == Some(Buy) <==>
              last.Some? && current.Some? && last.value <= oversold < current.value && confirmed
    ensures r == Some(Sell) <==>
              last.Some? && current.Some? && last.value >= overbought > current.value && confirmed &&
              !(last.value <= oversold < current.value)
    ensures last.None? || current.None? ==> r == None
  {
    if current.None? || last.None? then None
    else if last.value <= oversold && current.value > oversold && confirmed then Some(Buy)
    else if last.value >= overbought && current.value < overbought && confirmed then Some(Sell)
    else None
  }

  /** With oversold below overbought a crossing cannot be both, so SELL is exactly a confirmed crossing down. */
  lemma RsiSignalLevels(last: Option<real>, current: Option<real>, confirmed: bool, overbought: real, oversold: real)
    requires oversold < overbought
    ensures RsiSignal(last, current, confirmed, overbought, oversold) == Some(Sell) <==>
              last.Some? && current.Some? && last.value >= overbought > current.value && confirmed
  {
  }

  /** `RSIStrategy`: its period and levels, the two deques and the previous RSI. */
  class Strategy {
    const rsiPeriod: nat
    const overbought: real
    const oversold: real
    var closePrices: seq<real>
    var volumes: seq<real>
    var lastRsi: Option<real>

    /** The deques never exceed their capacities. */
    predicate Valid()
      reads this
    {
      rsiPeriod >= 1 && |closePrices| <= rsiPeriod + 1 && |volumes| <= VolumeWindow
    }

    /** `RSIStrategy(rsi_period, overbought, oversold)`. */
    constructor (rsiPeriod: nat, overbought: real, oversold: real)
      requires rsiPeriod >= 1
      ensures Valid()
      ensures this.rsiPeriod == rsiPeriod && this.overbought == overbought && this.oversold == oversold
      ensures closePrices == [] && volumes == [] && lastRsi == None
    {
      this.rsiPeriod := rsiPeriod;
      this.overbought := overbought;
      this.oversold := oversold;
      closePrices := [];
      volumes := [];
      lastRsi := None;
    }

    /**
     * `generate_signal(candle)`: push the close and the volume, compute the
     * RSI, decide against the previous RSI, and always remember the new RSI.
     */
    method GenerateSignal(candle: Candle) returns (signal: Option<Trade>)
      requires Valid()
      modifies this
      ensures Valid()
      ensures closePrices == DequePush(old(closePrices), candle.close, rsiPeriod + 1)
      ensures volumes == DequePush(old(volumes), candle.volume, VolumeWindow)
      ensures lastRsi == Rsi(closePrices, rsiPeriod)
      ensures signal == RsiSignal(old(lastRsi), lastRsi, VolumeConfirming(volumes, candle.volume), overbought, oversold)
    {
      closePrices := DequePush(closePrices, candle.close, rsiPeriod + 1);
      volumes := DequePush(volumes, candle.volume, VolumeWindow);
      var currentRsi := Rsi(closePrices, rsiPeriod);
      if currentRsi.None? || lastRsi.None? {
        lastRsi := currentRsi;
        return None;
      }
      signal := None;
      var volumeConfirmed := VolumeConfirming(volumes, candle.volume);
      if lastRsi.value <= oversold && currentRsi.value > oversold && volumeConfirmed {
        signal := Some(Buy);
      } else if lastRsi.value >= overbought && currentRsi.value < overbought && volumeConfirmed {
        signal := Some(Sell);
      }
      lastRsi := currentRsi;
    }
  }
}
