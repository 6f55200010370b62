/**
 * The MACD strategy of strategy/macd_strategy.py: the exponential moving
 * average filled into an array, the MACD and signal lines, the crossover and
 * divergence rules, and `analyze`, where a crossover takes precedence over a
 * divergence. Only the second `calculate_macd` is modelled: it replaces the
 * first definition in the class body.
 */
module MacdStrategy {
  import opened Common

  const FastPeriod: nat := 12
  const SlowPeriod: nat := 26
  const SignalPeriod: nat := 9
  /** Minimum |MACD - signal| for a crossover to count. */
  const SignalDistance: real := 0.0002
  /** Points compared by the divergence check. */
  const DivergenceWindow: nat := 10

  /** `2 / (period + 1)`. */
  function Multiplier(period: nat): (m: real)
    requires period >= 1
    ensures 0.0 < m <= 1.0
  {
    2.0 / (period + 1) as real
  }

  /** One EMA update: `(price - prev) * multiplier + prev`. */
  function EmaStep(price: real, prev: real, period: nat): real
    requires period >= 1
  {
    (price - prev) * Multiplier(period) + prev
  }

  /**
   * Entry i of `_calculate_ema(data, period)`: zero before period-1, the SMA
   * seed at period-1, then the recurrence. Every seeded entry is an average
   * of the data, so it lies between their least and their greatest value.
   */
  function EmaAt(data: seq<real>, period: nat, i: nat): (r: real)
    requires 1 <= period <= |data| && i < |data|
    ensures i < period - 1 ==> r == 0.0
    ensures i >= period - 1 ==> MinOf(data) <= r <= MaxOf(data)
  {
    if i < period - 1 then 0.0
    else if i == period - 1 then
      MeanBounds(data[..period], MinOf(data), MaxOf(data));
      Mean(data[..period])
    else
      EmaStepBetween(data[i], EmaAt(data, period, i - 1), period, MinOf(data), MaxOf(data));
      EmaStep(data[i], EmaAt(data, period, i - 1), period)
  }

  /** The whole EMA array: empty when the data are shorter than the period. */
  function EmaSeries(data: seq<real>, period: nat): (r: seq<real>)
    requires period >= 1
    ensures |r| == if |data| < period then 0 else |data|
  {
    if |data| < period then []
    else seq(|data|, i requires 0 <= i < |data| => EmaAt(data, period, i))
  }

  /** An update moves from the previous value towards the price without overshooting, so stays between any bounds of both. */
  lemma EmaStepBetween(price: real, prev: real, period: nat, lo: real, hi: real)
    requires period >= 1 && lo <= price <= hi && lo <= prev <= hi
    ensures lo <= EmaStep(price, prev, period) <= hi
  {
    var m := Multiplier(period);
    assert EmaStep(price, prev, period) - lo == m * (price - lo) + (1.0 - m) * (prev - lo);
    assert hi - EmaStep(price, prev, period) == m * (hi - price) + (1.0 - m) * (hi - prev);
    MulNonNegative(m, price - lo);
    MulNonNegative(1.0 - m, prev - lo);
    MulNonNegative(m, hi - price);
    MulNonNegative(1.0 - m, hi - prev);
  }

  /**
   * From index period-1 on, the EMA stays within any bounds of the data; in
   * particular the EMA of a constant series is that constant.
   */
  lemma {:induction false} EmaBounds(data: seq<real>, period: nat, i: nat, lo: real, hi: real)
    requires 1 <= period <= |data| && period - 1 <= i < |data|
    requires forall k :: 0 <= k < |data| ==> lo <= data[k] <= hi
    ensures lo <= EmaAt(data, period, i) <= hi
    decreases i
  {
    if i == period - 1 {
      MeanBounds(data[..period], lo, hi);
    } else {
      EmaBounds(data, period, i - 1, lo, hi);
      EmaStepBetween(data[i], EmaAt(data, period, i - 1), period, lo, hi);
    }
  }

  /**
   * `_calculate_ema(data, period)`: a zero array of the data's length whose
   * entry period-1 is set to the mean of the first `period` values and whose
   * later entries are filled left to right by the recurrence.
   */
  method CalculateEma(data: seq<real>, period: nat) returns (ema: array<real>)
    requires period >= 1
    ensures ema[..] == EmaSeries(data, period)
  {
    if |data| < period {
      ema := new real[0];
      return;
    }
    ema := new real[|data|](_ => 0.0);
    ema[period - 1] := Mean(data[..period]);
    var i := period;
    while i < |data|
      invariant period <= i <= |data|
      invariant forall k :: 0 <= k < i ==> ema[k] == EmaAt(data, period, k)
    {
      ema[i] := EmaStep(data[i], ema[i - 1], period);
      i := i + 1;
    }
  }

  /**
   * The MACD line `fast_ema - slow_ema`, element by element. numpy cannot
   * subtract the empty slow EMA from a non-empty fast one, so the closes are
   * either at least the slow period long or shorter than the fast one. Once
   * both averages are seeded, the MACD lies within the spread of the closes.
   */
  function MacdLine(closes: seq<real>): (r: seq<real>)
    requires |closes| >= SlowPeriod || |closes| < FastPeriod
    ensures |r| == if |closes| < FastPeriod then 0 else |closes|
    ensures forall i :: 0 <= i < |r| ==> r[i] == EmaAt(closes, FastPeriod, i) - EmaAt(closes, SlowPeriod, i)
    ensures forall i :: SlowPeriod - 1 <= i < |r| ==> MinOf(closes) - MaxOf(closes) <= r[i] <= MaxOf(closes) - MinOf(closes)
  {
    var fast, slow := EmaSeries(closes, FastPeriod), EmaSeries(closes, SlowPeriod);
    seq(|fast|, i requires 0 <= i < |fast| => fast[i] - slow[i])
  }

  /** The signal line: the EMA of the MACD line, as long as it and, once seeded, within its range. */
  function SignalLine(closes: seq<real>): (r: seq<real>)
    requires |closes| >= SlowPeriod || |closes| < FastPeriod
    ensures |r| == |MacdLine(closes)|
    ensures forall i :: SignalPeriod - 1 <= i < |r| ==> MinOf(MacdLine(closes)) <= r[i] <= MaxOf(MacdLine(closes))
  {
    EmaSeries(MacdLine(closes), SignalPeriod)
  }

  /**
   * On at least slow-period closes both lines have the closes' length, the
   * MACD entry is the fast EMA minus the slow EMA, and from index
   * slow-period - 1 on the MACD line lies within the spread of the closes.
   */
  lemma MacdLineShape(closes: seq<real>, lo: real, hi: real)
    requires |closes| >= SlowPeriod
    requires forall k :: 0 <= k < |closes| ==> lo <= closes[k] <= hi
    ensures |MacdLine(closes)| == |closes| && |SignalLine(closes)| == |closes|
    ensures forall i :: 0 <= i < |closes| ==>
              MacdLine(closes)[i] == EmaAt(closes, FastPeriod, i) - EmaAt(closes, SlowPeriod, i)
    ensures forall i :: SlowPeriod - 1 <= i < |closes| ==> lo - hi <= MacdLine(closes)[i] <= hi - lo
  {
    forall i | SlowPeriod - 1 <= i < |closes|
      ensures lo - hi <= MacdLine(closes)[i] <= hi - lo
    {
      EmaBounds(closes, FastPeriod, i, lo, hi);
      EmaBounds(closes, SlowPeriod, i, lo, hi);
    }
  }

  /** `calculate_macd(closes)`. */
  method CalculateMacd(closes: seq<real>) returns (macd: array<real>, signal: array<real>)
    requires |closes| >= SlowPeriod || |closes| < FastPeriod
    ensures macd[..] == MacdLine(closes) && signal[..] == SignalLine(closes)
  {
    var fast := CalculateEma(closes, FastPeriod);
    var slow := CalculateEma(closes, SlowPeriod);
    macd := new real[fast.Length];
    var i := 0;
    while i < fast.Length
      invariant 0 <= i <= fast.Length
      invariant fast[..] == EmaSeries(closes, FastPeriod) && slow[..] == EmaSeries(closes, SlowPeriod)
      invariant forall k :: 0 <= k < i ==> macd[k] == fast[k] - slow[k]
    {
      macd[i] := fast[i] - slow[i];
      i := i + 1;
    }
    forall k | 0 <= k < macd.Length
      ensures macd[..][k] == MacdLine(closes)[k]
    {
      assert fast[k] == fast[..][k] && slow[k] == slow[..][k];
    }
    signal := CalculateEma(macd[..], SignalPeriod);
  }

  /**
   * `detect_crossover(macd_line, signal_line)`: a bullish crossover is exactly
   * the MACD moving from below the signal line to at least the signal
   * distance above it; a bearish one is the mirror.
   */
  function Crossover(macd: seq<real>, signal: seq<real>): (r: Option<Direction>)
    ensures r == Some(Bullish) <==>
              |macd| >= 2 && |signal| >= 2 &&
              macd[|macd| - 2] < signal[|signal| - 2] &&
              macd[|macd| - 1] - signal[|signal| - 1] >= SignalDistance
    ensures r == Some(Bearish) <==>
              |macd| >= 2 && |signal| >= 2 &&
              macd[|macd| - 2] > signal[|signal| - 2] &&
              signal[|signal| - 1] - macd[|macd| - 1] >= SignalDistance
  {
    if |macd| < 2 || |signal| < 2 then None
    else
      var prevDiff := macd[|macd| - 2] - signal[|signal| - 2];
      var currDiff := macd[|macd| - 1] - signal[|signal| - 1];
      if Abs(currDiff) < SignalDistance then None
      else if prevDiff < 0.0 && currDiff > 0.0 then Some(Bullish)
      else if prevDiff > 0.0 && currDiff < 0.0 then Some(Bearish)
      else None
  }

  /**
   * `check_histogram_divergence`: price and MACD trends over the last ten
   * points, a tie counting as falling. Price up while MACD is not is bearish,
   * price not up while MACD is up is bullish, agreeing trends are no signal,
   * all judged from the points ten places from the end to the last.
   */
  function Divergence(closes: seq<real>, macd: seq<real>): (r: Option<Direction>)
    ensures |closes| < DivergenceWindow || |macd| < DivergenceWindow ==> r == None
    ensures |closes| >= DivergenceWindow && |macd| >= DivergenceWindow ==>
              var n, m := |closes|, |macd|;
              var priceUp, macdUp := closes[n - 1] > closes[n - 10], macd[m - 1] > macd[m - 10];
              (r == Some(Bearish) <==> priceUp && !macdUp) &&
              (r == Some(Bullish) <==> !priceUp && macdUp) &&
              (r == None <==> priceUp == macdUp)
  {
    if |closes| < DivergenceWindow || |macd| < DivergenceWindow then None
    else
      var prices, macds := LastN(closes, DivergenceWindow), LastN(macd, DivergenceWindow);
      var priceUp := prices[|prices| - 1] > prices[0];
      var macdUp := macds[|macds| - 1] > macds[0];
      if priceUp == macdUp then None
      else if priceUp && !macdUp then Some(Bearish)
      else Some(Bullish)
  }

  /**
   * The outcome of `analyze(candles)`: nothing below slow + signal candles;
   * otherwise a crossover wins, and only without one is the divergence of the
   * closes against the MACD line reported.
   */
  function MacdVerdict(cs: seq<Candle>): (r: Option<Direction>)
    ensures |cs| < SlowPeriod + SignalPeriod ==> r == None
    ensures |cs| >= SlowPeriod + SignalPeriod ==>
              var closes := Closes(cs);
              var cross := Crossover(MacdLine(closes), SignalLine(closes));
              (cross.Some? ==> r == cross) &&
              (cross.None? ==> r == Divergence(closes, MacdLine(closes)))
  {
    if |cs| < SlowPeriod + SignalPeriod then None
    else
      var closes := Closes(cs);
      var macd, signal := MacdLine(closes), SignalLine(closes);
      if |macd| < 2 || |signal| < 2 then None
      else if Crossover(macd, signal).Some? then Crossover(macd, signal)
      else Divergence(closes, macd)
  }

  /** `analyze(candles)`. */
  method Analyze(cs: seq<Candle>) returns (r: Option<Direction>)
    ensures r == MacdVerdict(cs)
  {
    if |cs| < SlowPeriod + SignalPeriod {
      return None;
    }
    var closes := Closes(cs);
    var macd, signal := CalculateMacd(closes);
    if macd.Length < 2 || signal.Length < 2 {
      return None;
    }
    var crossover := Crossover(macd[..], signal[..]);
    if crossover.Some? {
      return crossover;
    }
    r := Divergence(closes, macd[..]);
  }
}
