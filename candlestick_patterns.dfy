/**
 * The Japanese candlestick predicates of strategy/candlestick_patterns.py:
 * doji, hammer, engulfing, morning and evening star, three white soldiers and
 * three black crows, and the `analyze` summary over the latest candles.
 * The multi-candle predicates look at the last three candles of a series.
 */
module CandlestickPatterns {
  import opened Common

  /** `min_pattern_bars`: `analyze` needs at least this many candles. */
  const MinPatternBars: nat := 5

  /** The default `doji_size` and `threshold` arguments. */
  const DefaultDojiSize: real := 0.1
  const DefaultShadowThreshold: real := 0.1

  function Body(c: Candle): (r: real)
    ensures r >= 0.0
  {
    Abs(c.close - c.open)
  }

  function UpperShadow(c: Candle): real
  {
    c.high - Max(c.open, c.close)
  }

  function LowerShadow(c: Candle): real
  {
    Min(c.open, c.close) - c.low
  }

  /**
   * `is_doji`: never for a zero range, otherwise a body below `dojiSize` of
   * the range; on a positive range that is body < dojiSize × range, and on an
   * inverted one (high below low) the comparison turns round.
   */
  predicate IsDoji(c: Candle, dojiSize: real)
    ensures c.high == c.low ==> !IsDoji(c, dojiSize)
    ensures c.high > c.low ==> (IsDoji(c, dojiSize) <==> Body(c) < dojiSize * (c.high - c.low))
    ensures c.high < c.low ==> (IsDoji(c, dojiSize) <==> Body(c) > dojiSize * (c.high - c.low))
  {
    DojiRatio(Body(c), c.high - c.low, dojiSize);
    c.high - c.low != 0.0 && Body(c) / (c.high - c.low) < dojiSize
  }

  /** body / range < size as a product test, for either sign of the range. */
  lemma DojiRatio(body: real, range: real, size: real)
    ensures range > 0.0 ==> (body / range < size <==> body < size * range)
    ensures range < 0.0 ==> (body / range < size <==> body > size * range)
  {
    if range > 0.0 {
      DivOrder(body, range, size);
    } else if range < 0.0 {
      var q := body / range;
      assert q * -range == -body;
      assert size * -range == -(size * range);
      MulOrder(q, size, -range);
    }
  }

  /**
   * `is_hammer`: a lower shadow at least twice the body, an upper shadow at
   * most the body, a body under 30 % of the range. A hammer therefore has a
   * positive range and a lower shadow at least as long as its upper shadow.
   */
  predicate IsHammer(c: Candle)
    ensures IsHammer(c) ==> c.high - c.low > 0.0 && LowerShadow(c) >= UpperShadow(c)
  {
    !(LowerShadow(c) < Body(c) * 2.0) && !(UpperShadow(c) > Body(c)) && Body(c) < (c.high - c.low) * 0.3
  }

  /**
   * `is_engulfing(curr_open, curr_close, prev_open, prev_close)`: BEARISH
   * exactly when the current candle opens above the previous close and closes
   * below the previous open, BULLISH exactly on the mirror image, and None
   * exactly when neither holds.
   */
  function Engulfing(currOpen: real, currClose: real, prevOpen: real, prevClose: real): (r: Option<Direction>)
    ensures r == Some(Bearish) <==> currOpen > prevClose && currClose < prevOpen
    ensures r == Some(Bullish) <==> currOpen < prevClose && currClose > prevOpen
    ensures r == None <==> !(currOpen > prevClose && currClose < prevOpen) && !(currOpen < prevClose && currClose > prevOpen)
  {
    if currOpen > prevClose && currClose < prevOpen then Some(Bearish)
    else if currOpen < prevClose && currClose > prevOpen then Some(Bullish)
    else None
  }

  /**
   * `is_morning_star`: bearish, doji, bullish, with the two gap conditions.
   * The doji's body reaches down to the first candle's close, and up to the
   * third candle's close.
   */
  predicate IsMorningStar(cs: seq<Candle>)
    ensures IsMorningStar(cs) ==>
              |cs| >= 3 &&
              var first, second, third := cs[|cs| - 3], cs[|cs| - 2], cs[|cs| - 1];
              first.close < first.open && IsDoji(second, DefaultDojiSize) && third.close > third.open &&
              Min(second.open, second.close) <= first.close && Max(second.open, second.close) >= third.close
  {
    |cs| >= 3 &&
    var first, second, third := cs[|cs| - 3], cs[|cs| - 2], cs[|cs| - 1];
    first.close - first.open < 0.0 &&
    IsDoji(second, DefaultDojiSize) &&
    third.close - third.open > 0.0 &&
    !(Min(second.open, second.close) > Min(first.open, first.close)) &&
    !(Max(second.open, second.close) < Max(third.open, third.close))
  }

  /**
   * `is_evening_star`: the mirror image. The doji's body reaches up to the
   * first candle's close, and down to the third candle's close.
   */
  predicate IsEveningStar(cs: seq<Candle>)
    ensures IsEveningStar(cs) ==>
              |cs| >= 3 &&
              var first, second, third := cs[|cs| - 3], cs[|cs| - 2], cs[|cs| - 1];
              first.close > first.open && IsDoji(second, DefaultDojiSize) && third.close < third.open &&
              Max(second.open, second.close) >= first.close && Min(second.open, second.close) <= third.close
  {
    |cs| >= 3 &&
    var first, second, third := cs[|cs| - 3], cs[|cs| - 2], cs[|cs| - 1];
    first.close - first.open > 0.0 &&
    IsDoji(second, DefaultDojiSize) &&
    third.close - third.open < 0.0 &&
    !(Max(second.open, second.close) < Max(first.open, first.close)) &&
    !(Min(second.open, second.close) > Min(third.open, third.close))
  }

  /** The stars are never both found on the same data: the first candle cannot be both bearish and bullish. */
  lemma StarsExclusive(cs: seq<Candle>)
    ensures !(IsMorningStar(cs) && IsEveningStar(cs))
  {
  }

  /** One candle of three white soldiers: bullish, opening no lower than the previous candle, with a small upper shadow. */
  predicate SoldierAt(cs: seq<Candle>, i: nat, threshold: real)
    requires 3 <= |cs| && |cs| - 3 <= i < |cs|
  {
    cs[i].close > cs[i].open &&
    (i > |cs| - 3 ==> !(cs[i].open < cs[i - 1].open)) &&
    !(cs[i].high - cs[i].close > (cs[i].close - cs[i].open) * threshold)
  }

  /** One candle of three black crows: bearish, opening no higher than the previous candle, with a small lower shadow. */
  predicate CrowAt(cs: seq<Candle>, i: nat, threshold: real)
    requires 3 <= |cs| && |cs| - 3 <= i < |cs|
  {
    cs[i].close < cs[i].open &&
    (i > |cs| - 3 ==> !(cs[i].open > cs[i - 1].open)) &&
    !(cs[i].close - cs[i].low > (cs[i].open - cs[i].close) * threshold)
  }

  /**
   * `is_three_white_soldiers`: the loop over the last three candles returns
   * False at the first failing check, so the pattern holds exactly when each
   * of the three passes; they are then bullish with non-decreasing opens.
   */
  predicate IsThreeWhiteSoldiers(cs: seq<Candle>, threshold: real)
    ensures var n := |cs|;
            IsThreeWhiteSoldiers(cs, threshold) <==>
              n >= 3 && SoldierAt(cs, n - 3, threshold) && SoldierAt(cs, n - 2, threshold) && SoldierAt(cs, n - 1, threshold)
    ensures IsThreeWhiteSoldiers(cs, threshold) ==>
              var n := |cs|;
              cs[n - 3].open <= cs[n - 2].open <= cs[n - 1].open &&
              cs[n - 1].close > cs[n - 1].open && cs[n - 2].close > cs[n - 2].open && cs[n - 3].close > cs[n - 3].open
  {
    |cs| >= 3 && forall i :: |cs| - 3 <= i < |cs| ==> SoldierAt(cs, i, threshold)
  }

  /**
   * `is_three_black_crows`: exactly when each of the last three candles
   * passes the crow test; they are then bearish with non-increasing opens.
   */
  predicate IsThreeBlackCrows(cs: seq<Candle>, threshold: real)
    ensures var n := |cs|;
            IsThreeBlackCrows(cs, threshold) <==>
              n >= 3 && CrowAt(cs, n - 3, threshold) && CrowAt(cs, n - 2, threshold) && CrowAt(cs, n - 1, threshold)
    ensures IsThreeBlackCrows(cs, threshold) ==>
              var n := |cs|;
              cs[n - 3].open >= cs[n - 2].open >= cs[n - 1].open &&
              cs[n - 1].close < cs[n - 1].open && cs[n - 2].close < cs[n - 2].open && cs[n - 3].close < cs[n - 3].open
  {
    |cs| >= 3 && forall i :: |cs| - 3 <= i < |cs| ==> CrowAt(cs, i, threshold)
  }

  /** Soldiers are bullish and crows bearish, so the two are never found together. */
  lemma SoldiersAndCrows(cs: seq<Candle>, threshold: real)
    ensures !(IsThreeWhiteSoldiers(cs, threshold) && IsThreeBlackCrows(cs, threshold))
  {
  }

  /** The seven entries of the signals dict. */
  datatype PatternSignals = PatternSignals(
    doji: bool,
    hammer: bool,
    engulfing: Option<Direction>,
    morningStar: bool,
    eveningStar: bool,
    threeWhiteSoldiers: bool,
    threeBlackCrows: bool)

  /** `analyze(candles)`: None below five candles, otherwise every pattern on the latest candles. */
  function Analyze(cs: seq<Candle>): (r: Option<PatternSignals>)
    ensures r.None? <==> |cs| < MinPatternBars
  {
    if |cs| < MinPatternBars then None
    else
      var last, prev := cs[|cs| - 1], cs[|cs| - 2];
      Some(PatternSignals(
        IsDoji(last, DefaultDojiSize),
        IsHammer(last),
        Engulfing(last.open, last.close, prev.open, prev.close),
        IsMorningStar(cs),
        IsEveningStar(cs),
        IsThreeWhiteSoldiers(cs, DefaultShadowThreshold),
        IsThreeBlackCrows(cs, DefaultShadowThreshold)))
  }

  /**
   * The summary never reports both stars, both of soldiers and crows, and a
   * doji only on a candle whose range is not zero; appending candles in
   * front of the latest five does not change it.
   */
  lemma AnalyzeConsistent(cs: seq<Candle>, older: seq<Candle>)
    requires |cs| >= MinPatternBars
    ensures var r := Analyze(cs).value;
            !(r.morningStar && r.eveningStar) && !(r.threeWhiteSoldiers && r.threeBlackCrows) &&
            (r.doji ==> cs[|cs| - 1].high != cs[|cs| - 1].low)
    ensures Analyze(older + cs) == Analyze(cs)
  {
    StarsExclusive(cs);
    SoldiersAndCrows(cs, DefaultShadowThreshold);
    var all := older + cs;
    assert all[|all| - 1] == cs[|cs| - 1] && all[|all| - 2] == cs[|cs| - 2] && all[|all| - 3] == cs[|cs| - 3];
  }
}
