/**
 * The combined strategy of strategy/combined_strategy.py: a trend vote over
 * moving averages and momentum, a volume trend, a pattern confidence built
 * from the candlestick and chart analyses, and `analyze`, which gates on
 * history length, filters, trend and confidence before a weighted vote of the
 * sub-strategies' labels.
 *
 * numpy division is modelled exactly where a zero denominator can occur: a
 * float64 quotient is finite, an infinity or NaN, and NaN compares false.
 */
module CombinedStrategy {
  import opened Common
  import CandlestickPatterns
  import ChartPatterns
  import MacdStrategy

  /** `analyze` and `identify_trend` need this many candles. */
  const MinCandles: nat := 50
  /** The short average, the momentum distance and the volume window. */
  const ShortWindow: nat := 20
  /** The long average. */
  const LongWindow: nat := 50
  /** Momentum votes only beyond 2 % either way. */
  const MomentumThreshold: real := 0.02
  /** Votes one side needs to name the trend. */
  const TrendVotesNeeded: nat := 3
  /** Confidence per truthy pattern. */
  const PatternWeight: real := 0.2
  /** Confidence added when the engulfing pattern agrees with the trend. */
  const AlignmentBonus: real := 0.3
  /** The volatility filter's annualised minimum. */
  const MinVolatility: real := 0.15
  /** Weight a side needs to be reported. */
  const MinWeightedVote: real := 2.0
  /** `weights.get(strategy, 1.0)`. */
  const DefaultWeight: real := 1.0

  /** `f - 1`: infinities and NaN are unchanged. */
  function MinusOne(f: NpFloat): NpFloat
  {
    if f.Finite? then Finite(f.v - 1.0) else f
  }

  /** `f < b`, false for NaN. */
  predicate Below(f: NpFloat, b: real)
  {
    match f
    case Finite(v) => v < b
    case NegInf => true
    case _ => false
  }

  /** `f > b`, false for NaN. */
  predicate Above(f: NpFloat, b: real)
  {
    match f
    case Finite(v) => v > b
    case PosInf => true
    case _ => false
  }

  /** The number of true entries. */
  function CountTrue(bs: seq<bool>): (r: nat)
    ensures r <= |bs|
  {
    if |bs| == 0 then 0 else CountTrue(bs[..|bs| - 1]) + (if bs[|bs| - 1] then 1 else 0)
  }

  /** No true entry counts zero; otherwise the count is positive. */
  lemma {:induction false} CountTrueZero(bs: seq<bool>)
    ensures CountTrue(bs) == 0 <==> forall k :: 0 <= k < |bs| ==> !bs[k]
  {
    if |bs| > 0 {
      CountTrueZero(bs[..|bs| - 1]);
      assert forall k :: 0 <= k < |bs| - 1 ==> bs[..|bs| - 1][k] == bs[k];
    }
  }

  /** The count of four flags, one by one. */
  lemma CountTrueFour(a: bool, b: bool, c: bool, d: bool)
    ensures CountTrue([a, b, c, d]) == (if a then 1 else 0) + (if b then 1 else 0) + (if c then 1 else 0) + (if d then 1 else 0)
  {
    assert CountTrue([a]) == (if a then 1 else 0) by {
      assert [a][..0] == [];
    }
    assert CountTrue([a, b]) == CountTrue([a]) + (if b then 1 else 0) by {
      assert [a, b][..1] == [a];
    }
    assert CountTrue([a, b, c]) == CountTrue([a, b]) + (if c then 1 else 0) by {
      assert [a, b, c][..2] == [a, b];
    }
    assert CountTrue([a, b, c, d]) == CountTrue([a, b, c]) + (if d then 1 else 0) by {
      assert [a, b, c, d][..3] == [a, b, c];
    }
  }

  // ---------------------------------------------------------------------
  // Trend

  /** The simple moving average of the last n closes. */
  function Sma(closes: seq<real>, n: nat): real
    requires 1 <= n <= |closes|
  {
    Mean(LastN(closes, n))
  }

  /** `closes[-1] / closes[-20] - 1`. */
  function Momentum(closes: seq<real>): NpFloat
    requires |closes| >= ShortWindow
  {
    MinusOne(NpDiv(closes[|closes| - 1], closes[|closes| - ShortWindow]))
  }

  /** The four bullish tests: close above each average, short above long, momentum above 2 %. */
  function BullishVotes(closes: seq<real>): seq<bool>
    requires |closes| >= LongWindow
  {
    var last := closes[|closes| - 1];
    [last > Sma(closes, ShortWindow), last > Sma(closes, LongWindow),
     Sma(closes, ShortWindow) > Sma(closes, LongWindow), Above(Momentum(closes), MomentumThreshold)]
  }

  /** The four bearish tests: each average test failing, momentum below -2 %. */
  function BearishVotes(closes: seq<real>): seq<bool>
    requires |closes| >= LongWindow
  {
    var last := closes[|closes| - 1];
    [last <= Sma(closes, ShortWindow), last <= Sma(closes, LongWindow),
     Sma(closes, ShortWindow) <= Sma(closes, LongWindow), Below(Momentum(closes), -MomentumThreshold)]
  }

  /** The trend the votes name: a side with three votes, the bullish side first. */
  function Verdict(bullish: seq<bool>, bearish: seq<bool>): Option<Direction>
  {
    if CountTrue(bullish) >= TrendVotesNeeded then Some(Bullish)
    else if CountTrue(bearish) >= TrendVotesNeeded then Some(Bearish)
    else None
  }

  /**
   * The trend of `identify_trend`; None stands for NEUTRAL. Below fifty
   * candles the trend is NEUTRAL. Otherwise it is BULLISH exactly when three
   * of the four bullish tests hold and BEARISH exactly when three of the four
   * bearish tests hold: the two can never both reach three.
   */
  function Trend(cs: seq<Candle>): (r: Option<Direction>)
    ensures |cs| < MinCandles ==> r == None
    ensures |cs| >= MinCandles ==>
              var closes := Closes(cs);
              !(CountTrue(BullishVotes(closes)) >= 3 && CountTrue(BearishVotes(closes)) >= 3) &&
              (r == Some(Bullish) <==> CountTrue(BullishVotes(closes)) >= 3) &&
              (r == Some(Bearish) <==> CountTrue(BearishVotes(closes)) >= 3)
  {
    if |cs| < MinCandles then None
    else
      var closes := Closes(cs);
      VotesTotal(closes);
      Verdict(BullishVotes(closes), BearishVotes(closes))
  }

  /** The two sides together cast at most four votes: three average tests and at most one momentum vote. */
  lemma VotesTotal(closes: seq<real>)
    requires |closes| >= LongWindow
    ensures CountTrue(BullishVotes(closes)) + CountTrue(BearishVotes(closes)) <= 4
    ensures CountTrue(BullishVotes(closes)) + CountTrue(BearishVotes(closes)) >= 3
  {
    var b, r := BullishVotes(closes), BearishVotes(closes);
    CountTrueFour(b[0], b[1], b[2], b[3]);
    CountTrueFour(r[0], r[1], r[2], r[3]);
    assert b == [b[0], b[1], b[2], b[3]] && r == [r[0], r[1], r[2], r[3]];
  }

  /** A market whose closes never move is BEARISH: every average test ties, and ties vote bearish. */
  lemma FlatMarketIsBearish(cs: seq<Candle>, c: real)
    requires |cs| >= MinCandles
    requires forall k :: 0 <= k < |cs| ==> cs[k].close == c
    ensures Trend(cs) == Some(Bearish)
  {
    var closes := Closes(cs);
    MeanBounds(LastN(closes, ShortWindow), c, c);
    MeanBounds(LastN(closes, LongWindow), c, c);
    var r := BearishVotes(closes);
    CountTrueFour(r[0], r[1], r[2], r[3]);
    assert r == [r[0], r[1], r[2], r[3]];
    VotesTotal(closes);
  }

  /** The last n closes of a longer history that ends with the given closes are the same. */
  lemma LastNOfSuffix(all: seq<real>, closes: seq<real>, n: nat)
    requires n <= |closes| <= |all| && all[|all| - |closes|..] == closes
    ensures LastN(all, n) == LastN(closes, n)
  {
    assert LastN(all, n) == all[|all| - |closes|..][|closes| - n..];
  }

  /** Two histories with the same last closes and averages cast the same votes. */
  lemma VotesEqual(all: seq<real>, closes: seq<real>)
    requires |all| >= |closes| >= LongWindow
    requires LastN(all, ShortWindow) == LastN(closes, ShortWindow) && LastN(all, LongWindow) == LastN(closes, LongWindow)
    requires Momentum(all) == Momentum(closes) && all[|all| - 1] == closes[|closes| - 1]
    ensures BullishVotes(all) == BullishVotes(closes) && BearishVotes(all) == BearishVotes(closes)
  {
  }

  /** Only the last fifty candles matter once there are fifty. */
  lemma TrendRecentOnly(cs: seq<Candle>, older: seq<Candle>)
    requires |cs| >= MinCandles
    ensures Trend(older + cs) == Trend(cs)
  {
    var all, closes := Closes(older + cs), Closes(cs);
    assert all[|all| - |closes|..] == closes;
    LastNOfSuffix(all, closes, ShortWindow);
    LastNOfSuffix(all, closes, LongWindow);
    assert all[|all| - 1] == closes[|closes| - 1];
    assert all[|all| - ShortWindow] == closes[|closes| - ShortWindow];
    assert Momentum(all) == Momentum(closes);
    VotesEqual(all, closes);
  }

  /** `identify_trend(candles)`: the vote counters incremented test by test. */
  method IdentifyTrend(cs: seq<Candle>) returns (trend: Option<Direction>)
    ensures trend == Trend(cs)
  {
    if |cs| < MinCandles {
      return None;
    }
    var closes := Closes(cs);
    var sma20 := Mean(LastN(closes, ShortWindow));
    var sma50 := Mean(LastN(closes, LongWindow));
    var momentum := MinusOne(NpDiv(closes[|closes| - 1], closes[|closes| - ShortWindow]));
    var bullishSignals, bearishSignals := 0, 0;
    if closes[|closes| - 1] > sma20 {
      bullishSignals := bullishSignals + 1;
    } else {
      bearishSignals := bearishSignals + 1;
    }
    if closes[|closes| - 1] > sma50 {
      bullishSignals := bullishSignals + 1;
    } else {
      bearishSignals := bearishSignals + 1;
    }
    if sma20 > sma50 {
      bullishSignals := bullishSignals + 1;
    } else {
      bearishSignals := bearishSignals + 1;
    }
    if Above(momentum, MomentumThreshold) {
      bullishSignals := bullishSignals + 1;
    } else if Below(momentum, -MomentumThreshold) {
      bearishSignals := bearishSignals + 1;
    }
    var b, r := BullishVotes(closes), BearishVotes(closes);
    CountTrueFour(b[0], b[1], b[2], b[3]);
    CountTrueFour(r[0], r[1], r[2], r[3]);
    assert b == [b[0], b[1], b[2], b[3]] && r == [r[0], r[1], r[2], r[3]];
    if bullishSignals >= TrendVotesNeeded {
      trend := Some(Bullish);
    } else if bearishSignals >= TrendVotesNeeded {
      trend := Some(Bearish);
    } else {
      trend := None;
    }
  }

  // ---------------------------------------------------------------------
  // Volume and filters

  /** `calculate_volume_trend(candles)`: the newest volume over the mean of the last twenty. */
  function VolumeTrend(cs: seq<Candle>): (r: Option<NpFloat>)
    ensures r.None? <==> |cs| < ShortWindow
  {
    if |cs| < ShortWindow then None
    else
      var vs := Volumes(cs);
      Some(NpDiv(vs[|vs| - 1], Mean(LastN(vs, ShortWindow))))
  }

  /**
   * With non-negative volumes the volume trend is below 1 exactly when the
   * newest volume is below the twenty-candle mean; twenty zero volumes give
   * NaN, which is not below 1.
   */
  lemma VolumeTrendBelowOne(cs: seq<Candle>)
    requires |cs| >= ShortWindow
    requires forall k :: 0 <= k < |cs| ==> cs[k].volume >= 0.0
    ensures Below(VolumeTrend(cs).value, 1.0) <==> cs[|cs| - 1].volume < Mean(LastN(Volumes(cs), ShortWindow))
  {
    var w := LastN(Volumes(cs), ShortWindow);
    var x := cs[|cs| - 1].volume;
    assert w[|w| - 1] == x;
    SumNonNegative(w);
    SumNonNegative(w[..|w| - 1]);
    if Mean(w) > 0.0 {
      DivOrder(x, Mean(w), 1.0);
    } else {
      assert Sum(w) == 0.0;
      assert x == 0.0;
    }
  }

  /** The configuration `combined_strategy.py` imports. */
  datatype Config = Config(
    weights: map<string, real>,
    trendConfirmationRequired: bool,
    minPatternConfidence: real,
    volatilityFilterEnabled: bool,
    volumeFilterEnabled: bool)

  /**
   * `should_filter_signal(candles)`, given the annualised volatility of the
   * closes (None below twenty candles). Without filters nothing is filtered.
   * The volatility filter rejects a missing or low volatility; once it has
   * passed (or is off), with non-negative volumes, the signal is filtered
   * exactly when the volume filter is on and there are fewer than twenty
   * candles or the newest volume is below their mean.
   */
  predicate ShouldFilter(cs: seq<Candle>, cfg: Config, volatility: Option<NpFloat>)
    ensures !cfg.volatilityFilterEnabled && !cfg.volumeFilterEnabled ==> !ShouldFilter(cs, cfg, volatility)
    ensures cfg.volatilityFilterEnabled && (volatility.None? || Below(volatility.value, MinVolatility)) ==>
              ShouldFilter(cs, cfg, volatility)
    ensures (forall k :: 0 <= k < |cs| ==> cs[k].volume >= 0.0) &&
            !(cfg.volatilityFilterEnabled && (volatility.None? || Below(volatility.value, MinVolatility))) ==>
              (ShouldFilter(cs, cfg, volatility) <==>
                 cfg.volumeFilterEnabled &&
                 (|cs| < ShortWindow || cs[|cs| - 1].volume < Mean(LastN(Volumes(cs), ShortWindow))))
  {
    VolumeGate(cs);
    (cfg.volatilityFilterEnabled && (volatility.None? || Below(volatility.value, MinVolatility))) ||
    (cfg.volumeFilterEnabled && (VolumeTrend(cs).None? || Below(VolumeTrend(cs).value, 1.0)))
  }

  /** The volume test of `ShouldFilter` on a full window of non-negative volumes. */
  lemma VolumeGate(cs: seq<Candle>)
    ensures |cs| >= ShortWindow && (forall k :: 0 <= k < |cs| ==> cs[k].volume >= 0.0) ==>
              (Below(VolumeTrend(cs).value, 1.0) <==> cs[|cs| - 1].volume < Mean(LastN(Volumes(cs), ShortWindow)))
  {
    if |cs| >= ShortWindow && (forall k :: 0 <= k < |cs| ==> cs[k].volume >= 0.0) {
      VolumeTrendBelowOne(cs);
    }
  }

  // ---------------------------------------------------------------------
  // Pattern confidence

  /**
   * The outcome of the chart dict's entries that rest on a least-squares
   * fit: the two flags and whether the wedge value is truthy.
   */
  datatype FittedPatterns = FittedPatterns(bullishFlag: bool, bearishFlag: bool, wedge: bool)

  /** Truthy entries of the candlestick dict; the engulfing label is truthy. */
  function CandlestickTruthy(p: CandlestickPatterns.PatternSignals): seq<bool>
  {
    [p.doji, p.hammer, p.engulfing.Some?, p.morningStar, p.eveningStar, p.threeWhiteSoldiers, p.threeBlackCrows]
  }

  /** Truthy entries of the chart dict. */
  function ChartTruthy(c: ChartPatterns.ChartSignals, fitted: FittedPatterns): seq<bool>
  {
    [c.ascendingTriangle, c.descendingTriangle, fitted.bullishFlag, fitted.bearishFlag, fitted.wedge,
     c.doubleTop, c.doubleBottom]
  }

  /** `pattern_count`. */
  function PatternCount(p: CandlestickPatterns.PatternSignals, c: ChartPatterns.ChartSignals, fitted: FittedPatterns): nat
  {
    CountTrue(CandlestickTruthy(p)) + CountTrue(ChartTruthy(c, fitted))
  }

  /**
   * `calculate_pattern_confidence(candles)`. The confidence lies in [0, 1].
   * It is 0 when either analysis is missing (fewer than ten candles), and
   * otherwise exactly when no pattern is truthy; five truthy patterns reach
   * the cap.
   */
  function PatternConfidence(cs: seq<Candle>, fitted: FittedPatterns): (r: real)
    ensures 0.0 <= r <= 1.0
    ensures |cs| < ChartPatterns.MinPatternBars ==> r == 0.0
    ensures |cs| >= ChartPatterns.MinPatternBars ==>
              var count := PatternCount(CandlestickPatterns.Analyze(cs).value, ChartPatterns.Analyze(cs).value, fitted);
              (r == 0.0 <==> count == 0) &&
              (count >= 5 ==> r == 1.0)
  {
    var candle, chart := CandlestickPatterns.Analyze(cs), ChartPatterns.Analyze(cs);
    if candle.None? || chart.None? then 0.0
    else
      var truthy := CandlestickTruthy(candle.value);
      CountTrueZero(truthy);
      assert truthy[2] == candle.value.engulfing.Some?;
      var trend := Trend(cs);
      var aligned := (trend == Some(Bullish) && candle.value.engulfing == Some(Bullish)) ||
                     (trend == Some(Bearish) && candle.value.engulfing == Some(Bearish));
      CappedConfidence(PatternCount(candle.value, chart.value, fitted), aligned)
  }

  /**
   * `min(pattern_count * 0.2 + bonus, 1.0)`, where the trend bonus needs a
   * truthy engulfing label, so comes with at least one pattern.
   */
  function CappedConfidence(count: nat, aligned: bool): (r: real)
    requires aligned ==> count >= 1
    ensures 0.0 <= r <= 1.0
    ensures r == 0.0 <==> count == 0
    ensures count >= 5 ==> r == 1.0
  {
    Min(count as real * PatternWeight + (if aligned then AlignmentBonus else 0.0), 1.0)
  }

  // ---------------------------------------------------------------------
  // Weighted vote

  /**
   * A sub-strategy's result as the vote sees it: no result, a simple value,
   * or the values of a dict. A value is Some(d) exactly when it equals the
   * label "BULLISH" or "BEARISH" of d.
   */
  datatype SubResult = Missing | Simple(value: Option<Direction>) | Labels(values: seq<Option<Direction>>)

  /** `self.weights.get(strategy, 1.0)`. */
  function Weight(weights: map<string, real>, name: string): real
  {
    if name in weights then weights[name] else DefaultWeight
  }

  /** How many values equal x. */
  function Occurrences(vs: seq<Option<Direction>>, x: Option<Direction>): (r: nat)
    ensures r <= |vs|
  {
    if |vs| == 0 then 0 else Occurrences(vs[..|vs| - 1], x) + (if vs[|vs| - 1] == x then 1 else 0)
  }

  /** How many labels of direction d a result carries. */
  function Matches(r: SubResult, d: Direction): nat
  {
    match r
    case Missing => 0
    case Simple(v) => if v == Some(d) then 1 else 0
    case Labels(vs) => Occurrences(vs, Some(d))
  }

  /** The labels of direction d across all results. */
  function LabelCount(entries: seq<(string, SubResult)>, d: Direction): nat
  {
    if |entries| == 0 then 0
    else LabelCount(entries[..|entries| - 1], d) + Matches(entries[|entries| - 1].1, d)
  }

  /** The weight w added once for every value equal to x. */
  function LabelWeight(vs: seq<Option<Direction>>, w: real, x: Option<Direction>): real
  {
    if |vs| == 0 then 0.0 else LabelWeight(vs[..|vs| - 1], w, x) + (if vs[|vs| - 1] == x then w else 0.0)
  }

  /** The weight a result adds to direction d when its strategy weighs w. */
  function EntryWeight(r: SubResult, w: real, d: Direction): real
  {
    match r
    case Missing => 0.0
    case Simple(v) => if v == Some(d) then w else 0.0
    case Labels(vs) => LabelWeight(vs, w, Some(d))
  }

  /** The weight gathered by direction d: each label adds its strategy's weight. */
  function WeightedVotes(entries: seq<(string, SubResult)>, weights: map<string, real>, d: Direction): (r: real)
    // non-negative weights give a non-negative total
    ensures (forall name :: name in weights ==> weights[name] >= 0.0) ==> r >= 0.0
  {
    if |entries| == 0 then 0.0
    else
      var e := entries[|entries| - 1];
      EntryWeightNonNegative(e.1, Weight(weights, e.0), d);
      WeightedVotes(entries[..|entries| - 1], weights, d) + EntryWeight(e.1, Weight(weights, e.0), d)
  }

  /** With weight 1 every label adds 1. */
  lemma {:induction false} LabelWeightUnit(vs: seq<Option<Direction>>, x: Option<Direction>)
    ensures LabelWeight(vs, 1.0, x) == Occurrences(vs, x) as real
  {
    if |vs| > 0 {
      LabelWeightUnit(vs[..|vs| - 1], x);
    }
  }

  /** A non-negative weight adds a non-negative total. */
  lemma {:induction false} LabelWeightNonNegative(vs: seq<Option<Direction>>, w: real, x: Option<Direction>)
    requires w >= 0.0
    ensures LabelWeight(vs, w, x) >= 0.0
  {
    if |vs| > 0 {
      LabelWeightNonNegative(vs[..|vs| - 1], w, x);
    }
  }

  /** A result whose strategy weighs w >= 0 adds a non-negative weight. */
  lemma EntryWeightNonNegative(r: SubResult, w: real, d: Direction)
    ensures w >= 0.0 ==> EntryWeight(r, w, d) >= 0.0
  {
    if r.Labels? && w >= 0.0 {
      LabelWeightNonNegative(r.values, w, Some(d));
    }
  }

  /**
   * The final decision on the two totals: a side wins exactly when its total
   * is at least 2 and more than the other side's.
   */
  function FinalSignal(bullish: real, bearish: real): (r: Option<Direction>)
    ensures r == Some(Bullish) <==> bullish >= MinWeightedVote && bullish > bearish
    ensures r == Some(Bearish) <==> bearish >= MinWeightedVote && bearish > bullish
  {
    if bullish > bearish && bullish >= MinWeightedVote then Some(Bullish)
    else if bearish > bullish && bearish >= MinWeightedVote then Some(Bearish)
    else None
  }

  /**
   * When every configured weight is 1 (or none is configured) each label
   * weighs 1, so the totals are the label counts.
   */
  lemma {:induction false} UnitWeights(entries: seq<(string, SubResult)>, weights: map<string, real>, d: Direction)
    requires forall name :: name in weights ==> weights[name] == 1.0
    ensures WeightedVotes(entries, weights, d) == LabelCount(entries, d) as real
  {
    if |entries| > 0 {
      UnitWeights(entries[..|entries| - 1], weights, d);
      var e := entries[|entries| - 1];
      if e.1.Labels? {
        LabelWeightUnit(e.1.values, Some(d));
      }
    }
  }

  /** The label weight of a one-longer prefix. */
  lemma LabelWeightStep(vs: seq<Option<Direction>>, w: real, x: Option<Direction>, j: nat)
    requires j < |vs|
    ensures LabelWeight(vs[..j + 1], w, x) == LabelWeight(vs[..j], w, x) + (if vs[j] == x then w else 0.0)
  {
    assert vs[..j + 1][..j] == vs[..j];
  }

  /** Occurrences of a one-longer prefix. */
  lemma OccurrencesStep(vs: seq<Option<Direction>>, x: Option<Direction>, j: nat)
    requires j < |vs|
    ensures Occurrences(vs[..j + 1], x) == Occurrences(vs[..j], x) + (if vs[j] == x then 1 else 0)
  {
    assert vs[..j + 1][..j] == vs[..j];
  }

  /** The inner loop of `analyze` over a dict's values: each label adds the weight to its side. */
  method TallyLabels(vs: seq<Option<Direction>>, weight: real) returns (bullish: real, bearish: real)
    ensures bullish == LabelWeight(vs, weight, Some(Bullish))
    ensures bearish == LabelWeight(vs, weight, Some(Bearish))
  {
    bullish, bearish := 0.0, 0.0;
    var j := 0;
    while j < |vs|
      invariant 0 <= j <= |vs|
      invariant bullish == LabelWeight(vs[..j], weight, Some(Bullish))
      invariant bearish == LabelWeight(vs[..j], weight, Some(Bearish))
    {
      LabelWeightStep(vs, weight, Some(Bullish), j);
      LabelWeightStep(vs, weight, Some(Bearish), j);
      if vs[j] == Some(Bullish) {
        bullish := bullish + weight;
      } else if vs[j] == Some(Bearish) {
        bearish := bearish + weight;
      }
      j := j + 1;
    }
    assert vs[..j] == vs;
  }

  /**
   * The loop of `analyze` over the collected signals: a missing result is
   * skipped, every label of a dict and a simple label add the strategy's
   * weight to their side.
   */
  method TallyVotes(entries: seq<(string, SubResult)>, weights: map<string, real>) returns (bullish: real, bearish: real)
    ensures bullish == WeightedVotes(entries, weights, Bullish)
    ensures bearish == WeightedVotes(entries, weights, Bearish)
  {
    bullish, bearish := 0.0, 0.0;
    var i := 0;
    while i < |entries|
      invariant 0 <= i <= |entries|
      invariant bullish == WeightedVotes(entries[..i], weights, Bullish)
      invariant bearish == WeightedVotes(entries[..i], weights, Bearish)
    {
      var (name, signal) := entries[i];
      assert entries[..i + 1][..i] == entries[..i];
      var weight := Weight(weights, name);
      match signal {
        case Missing =>
        case Simple(v) =>
          if v == Some(Bullish) {
            bullish := bullish + weight;
          } else if v == Some(Bearish) {
            bearish := bearish + weight;
          }
        case Labels(vs) =>
          var bull, bear := TallyLabels(vs, weight);
          bullish, bearish := bullish + bull, bearish + bear;
      }
      i := i + 1;
    }
    assert entries[..i] == entries;
  }

  // ---------------------------------------------------------------------
  // analyze

  /** The candlestick dict's values as labels: only the engulfing entry can carry one. */
  function CandlestickLabels(p: CandlestickPatterns.PatternSignals): seq<Option<Direction>>
  {
    [None, None, p.engulfing, None, None, None, None]
  }

  /** The chart dict's seven values are booleans, None or a wedge name, never a label. */
  function ChartLabels(): (r: seq<Option<Direction>>)
    ensures |r| == 7
  {
    seq(7, _ => None)
  }

  /** The candlestick analysis as a vote entry. */
  function CandlestickEntry(r: Option<CandlestickPatterns.PatternSignals>): SubResult
  {
    if r.None? then Missing else Labels(CandlestickLabels(r.value))
  }

  /** The chart analysis as a vote entry. */
  function ChartEntry(r: Option<ChartPatterns.ChartSignals>): SubResult
  {
    if r.None? then Missing else Labels(ChartLabels())
  }

  /** A simple result that may be None, as a vote entry. */
  function SimpleEntry(r: Option<Direction>): SubResult
  {
    if r.None? then Missing else Simple(r)
  }

  /**
   * The signals dict of `analyze`, in its order: MACD, RSI, momentum,
   * candlestick and chart. The RSI and momentum results are given.
   */
  function Signals(cs: seq<Candle>, rsi: SubResult, momentum: SubResult): seq<(string, SubResult)>
  {
    [("macd", SimpleEntry(MacdStrategy.MacdVerdict(cs))),
     ("rsi", rsi),
     ("momentum", momentum),
     ("candlestick", CandlestickEntry(CandlestickPatterns.Analyze(cs))),
     ("chart", ChartEntry(ChartPatterns.Analyze(cs)))]
  }

  /**
   * The outcome of `analyze(candles)`: nothing on fewer than fifty candles,
   * on a filtered market, or on a NEUTRAL trend when confirmation is
   * required; a reported side passed every gate, including the confidence
   * minimum, and outweighs the other side with a weight of at least 2.
   */
  function CombinedVerdict(cs: seq<Candle>, cfg: Config, volatility: Option<NpFloat>, fitted: FittedPatterns,
                           rsi: SubResult, momentum: SubResult): (r: Option<Direction>)
    ensures |cs| < MinCandles ==> r == None
    ensures ShouldFilter(cs, cfg, volatility) ==> r == None
    ensures cfg.trendConfirmationRequired && Trend(cs).None? ==> r == None
    ensures r.Some? ==>
              |cs| >= MinCandles && !ShouldFilter(cs, cfg, volatility) &&
              !(cfg.trendConfirmationRequired && Trend(cs).None?) && PatternConfidence(cs, fitted) >= cfg.minPatternConfidence &&
              var signals := Signals(cs, rsi, momentum);
              var other := if r.value == Bullish then Bearish else Bullish;
              WeightedVotes(signals, cfg.weights, r.value) >= MinWeightedVote &&
              WeightedVotes(signals, cfg.weights, r.value) > WeightedVotes(signals, cfg.weights, other)
  {
    if |cs| < MinCandles then None
    else if ShouldFilter(cs, cfg, volatility) then None
    else if cfg.trendConfirmationRequired && Trend(cs).None? then None
    else if PatternConfidence(cs, fitted) < cfg.minPatternConfidence then None
    else
      var signals := Signals(cs, rsi, momentum);
      FinalSignal(WeightedVotes(signals, cfg.weights, Bullish), WeightedVotes(signals, cfg.weights, Bearish))
  }

  /** The label count of five entries, one by one. */
  lemma LabelCountFive(s: seq<(string, SubResult)>, d: Direction)
    requires |s| == 5
    ensures LabelCount(s, d) == Matches(s[0].1, d) + Matches(s[1].1, d) + Matches(s[2].1, d) + Matches(s[3].1, d) + Matches(s[4].1, d)
  {
    assert LabelCount(s[..1], d) == Matches(s[0].1, d) by {
      assert s[..1][..0] == [];
    }
    assert LabelCount(s[..2], d) == LabelCount(s[..1], d) + Matches(s[1].1, d) by {
      assert s[..2][..1] == s[..1];
    }
    assert LabelCount(s[..3], d) == LabelCount(s[..2], d) + Matches(s[2].1, d) by {
      assert s[..3][..2] == s[..2];
    }
    assert LabelCount(s[..4], d) == LabelCount(s[..3], d) + Matches(s[3].1, d) by {
      assert s[..4][..3] == s[..3];
    }
    assert s[..5] == s;
  }

  /** A sequence without x has no occurrence of it. */
  lemma {:induction false} OccurrencesAbsent(vs: seq<Option<Direction>>, x: Option<Direction>)
    requires forall k :: 0 <= k < |vs| ==> vs[k] != x
    ensures Occurrences(vs, x) == 0
  {
    if |vs| > 0 {
      OccurrencesAbsent(vs[..|vs| - 1], x);
    }
  }

  /** The candlestick dict carries a label of d exactly when the engulfing pattern is d. */
  lemma CandlestickMatches(p: CandlestickPatterns.PatternSignals, d: Direction)
    ensures Matches(CandlestickEntry(Some(p)), d) == if p.engulfing == Some(d) then 1 else 0
  {
    var labels := CandlestickLabels(p);
    var x := Some(d);
    OccurrencesAbsent(labels[..2], x);
    OccurrencesStep(labels, x, 2);
    OccurrencesStep(labels, x, 3);
    OccurrencesStep(labels, x, 4);
    OccurrencesStep(labels, x, 5);
    OccurrencesStep(labels, x, 6);
    assert labels[..7] == labels;
  }

  /** The chart dict never carries a label. */
  lemma ChartMatches(c: ChartPatterns.ChartSignals, d: Direction)
    ensures Matches(ChartEntry(Some(c)), d) == 0
  {
    OccurrencesAbsent(ChartLabels(), Some(d));
  }

  /** The labels of d among the signals: MACD, RSI, momentum and the engulfing pattern, one each. */
  lemma SignalsLabels(cs: seq<Candle>, rsi: SubResult, momentum: SubResult, d: Direction)
    requires |cs| >= MinCandles
    ensures LabelCount(Signals(cs, rsi, momentum), d) ==
              (if MacdStrategy.MacdVerdict(cs) == Some(d) then 1 else 0) + Matches(rsi, d) + Matches(momentum, d) +
              (if CandlestickPatterns.Analyze(cs).value.engulfing == Some(d) then 1 else 0)
  {
    LabelCountFive(Signals(cs, rsi, momentum), d);
    CandlestickMatches(CandlestickPatterns.Analyze(cs).value, d);
    ChartMatches(ChartPatterns.Analyze(cs).value, d);
  }

  /** The confidence never exceeds 1, so a required minimum above 1 silences `analyze`. */
  lemma UnreachableConfidence(cs: seq<Candle>, cfg: Config, volatility: Option<NpFloat>, fitted: FittedPatterns,
                              rsi: SubResult, momentum: SubResult)
    requires cfg.minPatternConfidence > 1.0
    ensures CombinedVerdict(cs, cfg, volatility, fitted, rsi, momentum) == None
  {
  }

  /**
   * With unit weights a side needs two labels among MACD, RSI, momentum and
   * the engulfing pattern, and more than the other side: the chart analysis
   * never votes.
   */
  lemma UnitWeightVerdict(cs: seq<Candle>, cfg: Config, volatility: Option<NpFloat>, fitted: FittedPatterns,
                          rsi: SubResult, momentum: SubResult, d: Direction)
    requires forall name :: name in cfg.weights ==> cfg.weights[name] == 1.0
    requires CombinedVerdict(cs, cfg, volatility, fitted, rsi, momentum) == Some(d)
    ensures var other := if d == Bullish then Bearish else Bullish;
            var votes := (if MacdStrategy.MacdVerdict(cs) == Some(d) then 1 else 0) + Matches(rsi, d) + Matches(momentum, d) +
                         (if CandlestickPatterns.Analyze(cs).value.engulfing == Some(d) then 1 else 0);
            var against := (if MacdStrategy.MacdVerdict(cs) == Some(other) then 1 else 0) + Matches(rsi, other) + Matches(momentum, other) +
                           (if CandlestickPatterns.Analyze(cs).value.engulfing == Some(other) then 1 else 0);
            votes >= 2 && votes > against
  {
    var other := if d == Bullish then Bearish else Bullish;
    var signals := Signals(cs, rsi, momentum);
    UnitWeights(signals, cfg.weights, d);
    UnitWeights(signals, cfg.weights, other);
    SignalsLabels(cs, rsi, momentum, d);
    SignalsLabels(cs, rsi, momentum, other);
  }

  /** `CombinedStrategy`: its configuration and the per-call signals store. */
  class Strategy {
    const config: Config
    var signals: map<string, SubResult>

    constructor (config: Config)
      ensures this.config == config && signals == map[]
    {
      this.config := config;
      signals := map[];
    }

    /**
     * `analyze(candles)`, given the volatility, the fitted chart patterns and
     * the RSI and momentum results. The signals store is cleared once fifty
     * candles are present.
     */
    method Analyze(cs: seq<Candle>, volatility: Option<NpFloat>, fitted: FittedPatterns,
                   rsi: SubResult, momentum: SubResult) returns (r: Option<Direction>)
      modifies this
      ensures signals == if |cs| < MinCandles then old(signals) else map[]
      ensures r == CombinedVerdict(cs, config, volatility, fitted, rsi, momentum)
    {
      if |cs| < MinCandles {
        return None;
      }
      signals := map[];
      r := Decide(cs, config, volatility, fitted, rsi, momentum);
    }
  }

  /** The gates of `analyze` on fifty candles or more: filter, trend confirmation, pattern confidence, then the vote. */
  method Decide(cs: seq<Candle>, config: Config, volatility: Option<NpFloat>, fitted: FittedPatterns,
                rsi: SubResult, momentum: SubResult) returns (r: Option<Direction>)
    requires |cs| >= MinCandles
    ensures r == CombinedVerdict(cs, config, volatility, fitted, rsi, momentum)
  {
    if ShouldFilter(cs, config, volatility) {
      return None;
    }
    var trend := IdentifyTrend(cs);
    var patternConfidence := PatternConfidence(cs, fitted);
    if config.trendConfirmationRequired && trend.None? {
      return None;
    }
    if patternConfidence < config.minPatternConfidence {
      return None;
    }
    r := Vote(cs, config.weights, rsi, momentum);
  }

  /** The end of `analyze`: the signals dict is collected and the weighted votes decide. */
  method Vote(cs: seq<Candle>, weights: map<string, real>, rsi: SubResult, momentum: SubResult) returns (r: Option<Direction>)
    ensures r == FinalSignal(WeightedVotes(Signals(cs, rsi, momentum), weights, Bullish),
                             WeightedVotes(Signals(cs, rsi, momentum), weights, Bearish))
  {
    var macd := MacdStrategy.Analyze(cs);
    var collected := [("macd", SimpleEntry(macd)), ("rsi", rsi), ("momentum", momentum),
                      ("candlestick", CandlestickEntry(CandlestickPatterns.Analyze(cs))),
                      ("chart", ChartEntry(ChartPatterns.Analyze(cs)))];
    var weightedBullish, weightedBearish := TallyVotes(collected, weights);
    r := FinalSignal(weightedBullish, weightedBearish);
  }
}
