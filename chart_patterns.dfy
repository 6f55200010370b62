/**
 * The chart patterns of strategy/chart_patterns.py: swing highs and lows of a
 * close series, ascending and descending triangles over the latest swing
 * points, double tops and bottoms, and the `analyze` guard.
 *
 * The swing points and closes are numpy float64 values, so a division by
 * zero yields an infinity or a NaN instead of raising; `RatioExceeds` models
 * a comparison `num / den > bound` under those rules.
 */
module ChartPatterns {
  import opened Common

  /** `min_pattern_bars`. */
  const MinPatternBars: nat := 10
  /** The default `window` of `find_swing_points`. */
  const SwingWindow: nat := 5
  /** The default `tolerance` argument. */
  const DefaultTolerance: real := 0.02
  /** The 5 % depth a double top's trough (or a double bottom's peak) must reach. */
  const MinDepth: real := 0.05

  /** A `(i, prices[i])` tuple. */
  datatype SwingPoint = SwingPoint(index: int, price: real)

  /** Index i is strictly above every price within `window` on either side. */
  predicate IsSwingHigh(prices: seq<real>, window: nat, i: int)
    requires window <= i < |prices| - window
  {
    forall j :: i - window <= j <= i + window && j != i ==> prices[j] < prices[i]
  }

  /** Index i is strictly below every price within `window` on either side. */
  predicate IsSwingLow(prices: seq<real>, window: nat, i: int)
    requires window <= i < |prices| - window
  {
    forall j :: i - window <= j <= i + window && j != i ==> prices[i] < prices[j]
  }

  /** The end of `range(window, len(prices) - window)`, never below its start. */
  function SwingEnd(prices: seq<real>, window: nat): (n: int)
    ensures n >= window && (n == window || n == |prices| - window)
  {
    if |prices| - window > window then |prices| - window else window
  }

  /** The swing highs among the indices window .. n-1, in index order. */
  function SwingHighsBelow(prices: seq<real>, window: nat, n: int): seq<SwingPoint>
    requires n <= SwingEnd(prices, window)
    decreases n - window
  {
    if n <= window then []
    else SwingHighsBelow(prices, window, n - 1) +
         (if IsSwingHigh(prices, window, n - 1) then [SwingPoint(n - 1, prices[n - 1])] else [])
  }

  /** The swing lows among the indices window .. n-1, in index order. */
  function SwingLowsBelow(prices: seq<real>, window: nat, n: int): seq<SwingPoint>
    requires n <= SwingEnd(prices, window)
    decreases n - window
  {
    if n <= window then []
    else SwingLowsBelow(prices, window, n - 1) +
         (if IsSwingLow(prices, window, n - 1) then [SwingPoint(n - 1, prices[n - 1])] else [])
  }

  function SwingHighs(prices: seq<real>, window: nat): seq<SwingPoint>
  {
    SwingHighsBelow(prices, window, SwingEnd(prices, window))
  }

  function SwingLows(prices: seq<real>, window: nat): seq<SwingPoint>
  {
    SwingLowsBelow(prices, window, SwingEnd(prices, window))
  }

  /** Every point carries its own price and an index inside `range(window, len - window)`. */
  predicate PointsIn(prices: seq<real>, window: nat, ps: seq<SwingPoint>)
  {
    forall k :: 0 <= k < |ps| ==>
      window <= ps[k].index < |prices| - window && ps[k].price == prices[ps[k].index]
  }

  predicate IncreasingIndices(ps: seq<SwingPoint>)
  {
    forall k, l :: 0 <= k < l < |ps| ==> ps[k].index < ps[l].index
  }

  /**
   * The swing highs below n are exactly the swing-high indices below n, each
   * once, in increasing order, each paired with its price.
   */
  lemma SwingHighsBelowExact(prices: seq<real>, window: nat, n: int)
    requires n <= SwingEnd(prices, window)
    ensures var r := SwingHighsBelow(prices, window, n);
            PointsIn(prices, window, r) && IncreasingIndices(r) &&
            (forall k :: 0 <= k < |r| ==> r[k].index < n && IsSwingHigh(prices, window, r[k].index)) &&
            (forall i :: window <= i < n && IsSwingHigh(prices, window, i) ==> exists k :: 0 <= k < |r| && r[k].index == i)
  {
    var r := SwingHighsBelow(prices, window, n);
    SwingHighsBelowShape(prices, window, n);
    forall k | 0 <= k < |r|
      ensures r[k].index < n && IsSwingHigh(prices, window, r[k].index)
    {
      SwingHighsBelowSound(prices, window, n, k);
    }
    forall i | window <= i < n && IsSwingHigh(prices, window, i)
      ensures exists k :: 0 <= k < |r| && r[k].index == i
    {
      SwingHighsBelowComplete(prices, window, n, i);
    }
  }

  /** The swing highs below n are in range, carry their prices and have increasing indices below n. */
  lemma {:induction false} SwingHighsBelowShape(prices: seq<real>, window: nat, n: int)
    requires n <= SwingEnd(prices, window)
    ensures var r := SwingHighsBelow(prices, window, n);
            PointsIn(prices, window, r) && IncreasingIndices(r) && forall k :: 0 <= k < |r| ==> r[k].index < n
    decreases n - window
  {
    if n > window {
      SwingHighsBelowShape(prices, window, n - 1);
      var prev := SwingHighsBelow(prices, window, n - 1);
      var tail := if IsSwingHigh(prices, window, n - 1) then [SwingPoint(n - 1, prices[n - 1])] else [];
      AppendPoint(prices, window, n, prev, tail);
    }
  }

  /** Each point of SwingHighsBelow is a swing high. */
  lemma {:induction false} SwingHighsBelowSound(prices: seq<real>, window: nat, n: int, k: nat)
    requires n <= SwingEnd(prices, window) && k < |SwingHighsBelow(prices, window, n)|
    ensures var p := SwingHighsBelow(prices, window, n)[k];
            window <= p.index < n && IsSwingHigh(prices, window, p.index)
    decreases n - window
  {
    var prev := SwingHighsBelow(prices, window, n - 1);
    if k < |prev| {
      SwingHighsBelowSound(prices, window, n - 1, k);
      assert SwingHighsBelow(prices, window, n)[k] == prev[k];
    }
  }

  /** Every swing high index below n has a point in SwingHighsBelow. */
  lemma {:induction false} SwingHighsBelowComplete(prices: seq<real>, window: nat, n: int, i: int)
    requires n <= SwingEnd(prices, window) && window <= i < n && IsSwingHigh(prices, window, i)
    ensures exists k :: 0 <= k < |SwingHighsBelow(prices, window, n)| && SwingHighsBelow(prices, window, n)[k].index == i
    decreases n - window
  {
    var r := SwingHighsBelow(prices, window, n);
    var prev := SwingHighsBelow(prices, window, n - 1);
    if i < n - 1 {
      SwingHighsBelowComplete(prices, window, n - 1, i);
      var k :| 0 <= k < |prev| && prev[k].index == i;
      assert r[k] == prev[k];
    } else {
      assert r[|r| - 1].index == i;
    }
  }

  /** The mirror of SwingHighsBelowExact for swing lows. */
  lemma SwingLowsBelowExact(prices: seq<real>, window: nat, n: int)
    requires n <= SwingEnd(prices, window)
    ensures var r := SwingLowsBelow(prices, window, n);
            PointsIn(prices, window, r) && IncreasingIndices(r) &&
            (forall k :: 0 <= k < |r| ==> r[k].index < n && IsSwingLow(prices, window, r[k].index)) &&
            (forall i :: window <= i < n && IsSwingLow(prices, window, i) ==> exists k :: 0 <= k < |r| && r[k].index == i)
  {
    var r := SwingLowsBelow(prices, window, n);
    SwingLowsBelowShape(prices, window, n);
    forall k | 0 <= k < |r|
      ensures r[k].index < n && IsSwingLow(prices, window, r[k].index)
    {
      SwingLowsBelowSound(prices, window, n, k);
    }
    forall i | window <= i < n && IsSwingLow(prices, window, i)
      ensures exists k :: 0 <= k < |r| && r[k].index == i
    {
      SwingLowsBelowComplete(prices, window, n, i);
    }
  }

  /** The swing lows below n are in range, carry their prices and have increasing indices below n. */
  lemma {:induction false} SwingLowsBelowShape(prices: seq<real>, window: nat, n: int)
    requires n <= SwingEnd(prices, window)
    ensures var r := SwingLowsBelow(prices, window, n);
            PointsIn(prices, window, r) && IncreasingIndices(r) && forall k :: 0 <= k < |r| ==> r[k].index < n
    decreases n - window
  {
    if n > window {
      SwingLowsBelowShape(prices, window, n - 1);
      var prev := SwingLowsBelow(prices, window, n - 1);
      var tail := if IsSwingLow(prices, window, n - 1) then [SwingPoint(n - 1, prices[n - 1])] else [];
      AppendPoint(prices, window, n, prev, tail);
    }
  }

  /** Each point of SwingLowsBelow is a swing low. */
  lemma {:induction false} SwingLowsBelowSound(prices: seq<real>, window: nat, n: int, k: nat)
    requires n <= SwingEnd(prices, window) && k < |SwingLowsBelow(prices, window, n)|
    ensures var p := SwingLowsBelow(prices, window, n)[k];
            window <= p.index < n && IsSwingLow(prices, window, p.index)
    decreases n - window
  {
    var prev := SwingLowsBelow(prices, window, n - 1);
    if k < |prev| {
      SwingLowsBelowSound(prices, window, n - 1, k);
      assert SwingLowsBelow(prices, window, n)[k] == prev[k];
    }
  }

  /** Every swing low index below n has a point in SwingLowsBelow. */
  lemma {:induction false} SwingLowsBelowComplete(prices: seq<real>, window: nat, n: int, i: int)
    requires n <= SwingEnd(prices, window) && window <= i < n && IsSwingLow(prices, window, i)
    ensures exists k :: 0 <= k < |SwingLowsBelow(prices, window, n)| && SwingLowsBelow(prices, window, n)[k].index == i
    decreases n - window
  {
    var r := SwingLowsBelow(prices, window, n);
    var prev := SwingLowsBelow(prices, window, n - 1);
    if i < n - 1 {
      SwingLowsBelowComplete(prices, window, n - 1, i);
      var k :| 0 <= k < |prev| && prev[k].index == i;
      assert r[k] == prev[k];
    } else {
      assert r[|r| - 1].index == i;
    }
  }

  /** Appending the point of index n-1 (or nothing) to points below n-1 keeps them in range, in order and complete. */
  lemma AppendPoint(prices: seq<real>, window: nat, n: int, prev: seq<SwingPoint>, tail: seq<SwingPoint>)
    requires window < n <= |prices| - window
    requires PointsIn(prices, window, prev) && IncreasingIndices(prev)
    requires forall k :: 0 <= k < |prev| ==> prev[k].index < n - 1
    requires tail == [] || tail == [SwingPoint(n - 1, prices[n - 1])]
    ensures var r := prev + tail;
            PointsIn(prices, window, r) && IncreasingIndices(r) &&
            (forall k :: 0 <= k < |r| ==> r[k].index < n) &&
            (forall k :: 0 <= k < |r| ==> r[k] in prev || r[k] == SwingPoint(n - 1, prices[n - 1])) &&
            (forall k :: 0 <= k < |prev| ==> r[k] == prev[k]) &&
            (tail != [] ==> r[|r| - 1].index == n - 1)
  {
  }

  /** With a window of at least one, no index is both a swing high and a swing low. */
  lemma SwingHighNotLow(prices: seq<real>, window: nat, i: int)
    requires window >= 1 && window <= i < |prices| - window
    ensures !(IsSwingHigh(prices, window, i) && IsSwingLow(prices, window, i))
  {
    if IsSwingHigh(prices, window, i) {
      assert prices[i - 1] < prices[i];
    }
  }

  /** The two lists of a window of at least one never share an index. */
  lemma SwingListsDisjoint(prices: seq<real>, window: nat)
    requires window >= 1
    ensures var highs, lows := SwingHighs(prices, window), SwingLows(prices, window);
            forall k, l :: 0 <= k < |highs| && 0 <= l < |lows| ==> highs[k].index != lows[l].index
  {
    var n := SwingEnd(prices, window);
    SwingHighsBelowExact(prices, window, n);
    SwingLowsBelowExact(prices, window, n);
    var highs, lows := SwingHighs(prices, window), SwingLows(prices, window);
    forall k, l | 0 <= k < |highs| && 0 <= l < |lows|
      ensures highs[k].index != lows[l].index
    {
      SwingHighNotLow(prices, window, highs[k].index);
    }
  }

  /** The test on `max(left_window)` and `max(right_window)` is the strict swing-high condition. */
  lemma SwingHighByMax(prices: seq<real>, window: nat, i: int)
    requires window >= 1 && window <= i < |prices| - window
    ensures var left, right := prices[i - window..i], prices[i + 1..i + window + 1];
            prices[i] > MaxOf(left) && prices[i] > MaxOf(right) <==> IsSwingHigh(prices, window, i)
  {
    var left, right := prices[i - window..i], prices[i + 1..i + window + 1];
    if prices[i] > MaxOf(left) && prices[i] > MaxOf(right) {
      forall j | i - window <= j <= i + window && j != i
        ensures prices[j] < prices[i]
      {
        if j < i {
          assert prices[j] == left[j - (i - window)];
        } else {
          assert prices[j] == right[j - (i + 1)];
        }
      }
    }
    if IsSwingHigh(prices, window, i) {
      var a :| 0 <= a < |left| && left[a] == MaxOf(left);
      assert left[a] == prices[i - window + a];
      var b :| 0 <= b < |right| && right[b] == MaxOf(right);
      assert right[b] == prices[i + 1 + b];
    }
  }

  /** The test on `min(left_window)` and `min(right_window)` is the strict swing-low condition. */
  lemma SwingLowByMin(prices: seq<real>, window: nat, i: int)
    requires window >= 1 && window <= i < |prices| - window
    ensures var left, right := prices[i - window..i], prices[i + 1..i + window + 1];
            prices[i] < MinOf(left) && prices[i] < MinOf(right) <==> IsSwingLow(prices, window, i)
  {
    var left, right := prices[i - window..i], prices[i + 1..i + window + 1];
    if prices[i] < MinOf(left) && prices[i] < MinOf(right) {
      forall j | i - window <= j <= i + window && j != i
        ensures prices[i] < prices[j]
      {
        if j < i {
          assert prices[j] == left[j - (i - window)];
        } else {
          assert prices[j] == right[j - (i + 1)];
        }
      }
    }
    if IsSwingLow(prices, window, i) {
      var a :| 0 <= a < |left| && left[a] == MinOf(left);
      assert left[a] == prices[i - window + a];
      var b :| 0 <= b < |right| && right[b] == MinOf(right);
      assert right[b] == prices[i + 1 + b];
    }
  }

  /** One step of the scan for swing highs, as the loop tests it. */
  lemma HighsStep(prices: seq<real>, window: nat, i: int)
    requires window >= 1 && window <= i < |prices| - window
    ensures var left, right := prices[i - window..i], prices[i + 1..i + window + 1];
            SwingHighsBelow(prices, window, i + 1) ==
              SwingHighsBelow(prices, window, i) +
              (if prices[i] > MaxOf(left) && prices[i] > MaxOf(right) then [SwingPoint(i, prices[i])] else [])
  {
    SwingHighByMax(prices, window, i);
  }

  /** One step of the scan for swing lows, as the loop tests it. */
  lemma LowsStep(prices: seq<real>, window: nat, i: int)
    requires window >= 1 && window <= i < |prices| - window
    ensures var left, right := prices[i - window..i], prices[i + 1..i + window + 1];
            SwingLowsBelow(prices, window, i + 1) ==
              SwingLowsBelow(prices, window, i) +
              (if prices[i] < MinOf(left) && prices[i] < MinOf(right) then [SwingPoint(i, prices[i])] else [])
  {
    SwingLowByMin(prices, window, i);
  }

  /**
   * `find_swing_points(prices, window)`: one pass over the interior indices,
   * appending `(i, prices[i])` to `highs` or `lows`. With window 0 Python's
   * `max` of the empty left window raises as soon as the loop runs, so a zero
   * window is accepted only for an empty series.
   */
  method FindSwingPoints(prices: seq<real>, window: nat) returns (highs: seq<SwingPoint>, lows: seq<SwingPoint>)
    requires window >= 1 || |prices| == 0
    ensures highs == SwingHighs(prices, window) && lows == SwingLows(prices, window)
  {
    highs, lows := [], [];
    var i := window;
    while i < |prices| - window
      invariant window <= i <= SwingEnd(prices, window)
      invariant highs == SwingHighsBelow(prices, window, i)
      invariant lows == SwingLowsBelow(prices, window, i)
      decreases |prices| - window - i
    {
      var left := prices[i - window..i];
      var right := prices[i + 1..i + window + 1];
      var current := prices[i];
      HighsStep(prices, window, i);
      LowsStep(prices, window, i);
      if current > MaxOf(left) && current > MaxOf(right) {
        highs := highs + [SwingPoint(i, current)];
      }
      if current < MinOf(left) && current < MinOf(right) {
        lows := lows + [SwingPoint(i, current)];
      }
      i := i + 1;
    }
  }

  /** The prices of a list of swing points (`[h[1] for h in points]`). */
  function PricesOf(ps: seq<SwingPoint>): (r: seq<real>)
    ensures |r| == |ps| && forall k :: 0 <= k < |ps| ==> r[k] == ps[k].price
  {
    seq(|ps|, k requires 0 <= k < |ps| => ps[k].price)
  }

  /**
   * `num / den > bound` on float64 values: for a zero denominator numpy gives
   * +inf for a positive numerator (above any bound), -inf for a negative one
   * and NaN for zero (both compare false).
   */
  predicate RatioExceeds(num: real, den: real, bound: real)
  {
    if den == 0.0 then num > 0.0 else num / den > bound
  }

  /** For a positive denominator the ratio test is the product test. */
  lemma RatioExceedsPositive(num: real, den: real, bound: real)
    requires den > 0.0
    ensures RatioExceeds(num, den, bound) <==> num > bound * den
  {
    DivOrder(num, den, bound);
  }

  /** No point deviates from the mean of the points by more than `tolerance` of that mean. */
  predicate Flat(points: seq<real>, tolerance: real)
    requires |points| > 0
  {
    forall k :: 0 <= k < |points| ==> !RatioExceeds(Abs(points[k] - Mean(points)), Mean(points), tolerance)
  }

  /** `all(s[i] > s[i-1] ...)`: each element above its predecessor, that is every earlier element below every later one. */
  predicate StrictlyIncreasing(s: seq<real>)
  {
    forall k, l :: 0 <= k < l < |s| ==> s[k] < s[l]
  }

  /** `all(s[i] < s[i-1] ...)`. */
  predicate StrictlyDecreasing(s: seq<real>)
  {
    forall k, l :: 0 <= k < l < |s| ==> s[k] > s[l]
  }

  /**
   * `is_ascending_triangle`: flat latest highs (up to three) and strictly
   * rising latest lows. It needs two swing highs and two swing lows, and its
   * last low is above the low before it (its flat highs are described by
   * FlatBand).
   */
  predicate IsAscendingTriangle(highs: seq<SwingPoint>, lows: seq<SwingPoint>, tolerance: real)
    ensures IsAscendingTriangle(highs, lows, tolerance) ==>
              |highs| >= 2 && |lows| >= 2 && lows[|lows| - 2].price < lows[|lows| - 1].price
  {
    LastTwoRise(lows);
    |highs| >= 2 && |lows| >= 2 &&
    Flat(PricesOf(LastN(highs, 3)), tolerance) &&
    StrictlyIncreasing(PricesOf(LastN(lows, 3)))
  }

  /**
   * `is_descending_triangle`: flat latest lows and strictly falling latest
   * highs; the last high is below the high before it.
   */
  predicate IsDescendingTriangle(highs: seq<SwingPoint>, lows: seq<SwingPoint>, tolerance: real)
    ensures IsDescendingTriangle(highs, lows, tolerance) ==>
              |highs| >= 2 && |lows| >= 2 && highs[|highs| - 2].price > highs[|highs| - 1].price
  {
    LastTwoFall(highs);
    |highs| >= 2 && |lows| >= 2 &&
    Flat(PricesOf(LastN(lows, 3)), tolerance) &&
    StrictlyDecreasing(PricesOf(LastN(highs, 3)))
  }

  /** Every point lies within +-tolerance times m of m. */
  predicate InBand(points: seq<real>, m: real, tolerance: real)
  {
    forall k :: 0 <= k < |points| ==> m - tolerance * m <= points[k] <= m + tolerance * m
  }

  /** A set of points with a positive mean is flat exactly when it lies in the band of +-tolerance around that mean. */
  lemma FlatBand(points: seq<real>, tolerance: real)
    requires |points| > 0 && Mean(points) > 0.0
    ensures Flat(points, tolerance) <==> InBand(points, Mean(points), tolerance)
  {
    BandAll(points, Mean(points), tolerance);
  }

  /** The flatness test against a positive centre m, point by point, is the band test. */
  lemma BandAll(points: seq<real>, m: real, tolerance: real)
    requires m > 0.0
    ensures (forall k :: 0 <= k < |points| ==> !RatioExceeds(Abs(points[k] - m), m, tolerance)) <==> InBand(points, m, tolerance)
  {
    forall k | 0 <= k < |points|
      ensures !RatioExceeds(Abs(points[k] - m), m, tolerance) <==> m - tolerance * m <= points[k] <= m + tolerance * m
    {
      WithinBand(points[k], m, tolerance);
    }
  }

  /** One point passes the flatness test exactly when it lies in the band. */
  lemma WithinBand(x: real, m: real, tolerance: real)
    requires m > 0.0
    ensures !RatioExceeds(Abs(x - m), m, tolerance) <==> m - tolerance * m <= x <= m + tolerance * m
  {
    RatioExceedsPositive(Abs(x - m), m, tolerance);
  }

  /** The last two of strictly rising latest points rise. */
  lemma LastTwoRise(ps: seq<SwingPoint>)
    ensures |ps| >= 2 && StrictlyIncreasing(PricesOf(LastN(ps, 3))) ==> ps[|ps| - 2].price < ps[|ps| - 1].price
  {
    if |ps| >= 2 && StrictlyIncreasing(PricesOf(LastN(ps, 3))) {
      var recent := PricesOf(LastN(ps, 3));
      assert recent[|recent| - 2] < recent[|recent| - 1];
    }
  }

  /** The last two of strictly falling latest points fall. */
  lemma LastTwoFall(ps: seq<SwingPoint>)
    ensures |ps| >= 2 && StrictlyDecreasing(PricesOf(LastN(ps, 3))) ==> ps[|ps| - 2].price > ps[|ps| - 1].price
  {
    if |ps| >= 2 && StrictlyDecreasing(PricesOf(LastN(ps, 3))) {
      var recent := PricesOf(LastN(ps, 3));
      assert recent[|recent| - 2] > recent[|recent| - 1];
    }
  }

  /** The minimum of a slice is below a bound exactly when some element of the slice is. */
  lemma MinOfSliceBelow(s: seq<real>, lo: int, hi: int, bound: real)
    requires 0 <= lo < hi <= |s|
    ensures MinOf(s[lo..hi]) < bound <==> exists j :: lo <= j < hi && s[j] < bound
  {
    var slice := s[lo..hi];
    var a :| 0 <= a < |slice| && slice[a] == MinOf(slice);
    assert s[lo + a] == MinOf(slice);
    if exists j :: lo <= j < hi && s[j] < bound {
      var j :| lo <= j < hi && s[j] < bound;
      assert slice[j - lo] == s[j];
    }
  }

  /** The maximum of a slice is above a bound exactly when some element of the slice is. */
  lemma MaxOfSliceAbove(s: seq<real>, lo: int, hi: int, bound: real)
    requires 0 <= lo < hi <= |s|
    ensures MaxOf(s[lo..hi]) > bound <==> exists j :: lo <= j < hi && s[j] > bound
  {
    var slice := s[lo..hi];
    var a :| 0 <= a < |slice| && slice[a] == MaxOf(slice);
    assert s[lo + a] == MaxOf(slice);
    if exists j :: lo <= j < hi && s[j] > bound {
      var j :| lo <= j < hi && s[j] > bound;
      assert slice[j - lo] == s[j];
    }
  }

  /** The last two points index into the price series. */
  predicate LastTwoIn(prices: seq<real>, ps: seq<SwingPoint>)
  {
    |ps| >= 2 ==> 0 <= ps[|ps| - 2].index <= |prices| && 0 <= ps[|ps| - 1].index <= |prices|
  }

  /**
   * `is_double_top`: the last two swing highs within `tolerance` of the first,
   * some price between them, and the lowest of those prices more than 5 %
   * below the first high. For a positive first high that is: the highs differ
   * by at most tolerance times the first, and some price from the first's
   * index up to but excluding the second's lies below 95 % of the first.
   */
  predicate IsDoubleTop(prices: seq<real>, highs: seq<SwingPoint>, tolerance: real)
    requires LastTwoIn(prices, highs)
    ensures |highs| >= 2 && highs[|highs| - 2].price > 0.0 ==>
              var first, second := highs[|highs| - 2], highs[|highs| - 1];
              (IsDoubleTop(prices, highs, tolerance) <==>
                Abs(first.price - second.price) <= tolerance * first.price &&
                first.index < second.index &&
                exists j :: first.index <= j < second.index && prices[j] < first.price - MinDepth * first.price)
  {
    |highs| >= 2 &&
    var first, second := highs[|highs| - 2], highs[|highs| - 1];
    DoubleTopTests(prices, first.price, second.price, first.index, second.index, tolerance);
    !RatioExceeds(Abs(first.price - second.price), first.price, tolerance) &&
    first.index < second.index &&
    RatioExceeds(first.price - MinOf(prices[first.index..second.index]), first.price, MinDepth)
  }

  /** The two ratio tests of a double top against a positive first high at index lo, the second at hi, as product tests. */
  lemma DoubleTopTests(prices: seq<real>, first: real, second: real, lo: int, hi: int, tolerance: real)
    requires 0 <= lo && 0 <= hi <= |prices|
    ensures first > 0.0 ==>
              (!RatioExceeds(Abs(first - second), first, tolerance) <==> Abs(first - second) <= tolerance * first) &&
              (lo < hi ==>
                 (RatioExceeds(first - MinOf(prices[lo..hi]), first, MinDepth) <==>
                    exists j :: lo <= j < hi && prices[j] < first - MinDepth * first))
  {
    if first > 0.0 {
      RatioExceedsPositive(Abs(first - second), first, tolerance);
      if lo < hi {
        RatioExceedsPositive(first - MinOf(prices[lo..hi]), first, MinDepth);
        MinOfSliceBelow(prices, lo, hi, first - MinDepth * first);
      }
    }
  }

  /**
   * `is_double_bottom`: the mirror, with the highest price between two
   * similar lows more than 5 % above the first. For a positive first low:
   * the lows differ by at most tolerance times the first, and some price
   * between them lies above 105 % of the first.
   */
  predicate IsDoubleBottom(prices: seq<real>, lows: seq<SwingPoint>, tolerance: real)
    requires LastTwoIn(prices, lows)
    ensures |lows| >= 2 && lows[|lows| - 2].price > 0.0 ==>
              var first, second := lows[|lows| - 2], lows[|lows| - 1];
              (IsDoubleBottom(prices, lows, tolerance) <==>
                Abs(first.price - second.price) <= tolerance * first.price &&
                first.index < second.index &&
                exists j :: first.index <= j < second.index && prices[j] > first.price + MinDepth * first.price)
  {
    |lows| >= 2 &&
    var first, second := lows[|lows| - 2], lows[|lows| - 1];
    DoubleBottomTests(prices, first.price, second.price, first.index, second.index, tolerance);
    !RatioExceeds(Abs(first.price - second.price), first.price, tolerance) &&
    first.index < second.index &&
    RatioExceeds(MaxOf(prices[first.index..second.index]) - first.price, first.price, MinDepth)
  }

  /** The two ratio tests of a double bottom against a positive first low at index lo, the second at hi, as product tests. */
  lemma DoubleBottomTests(prices: seq<real>, first: real, second: real, lo: int, hi: int, tolerance: real)
    requires 0 <= lo && 0 <= hi <= |prices|
    ensures first > 0.0 ==>
              (!RatioExceeds(Abs(first - second), first, tolerance) <==> Abs(first - second) <= tolerance * first) &&
              (lo < hi ==>
                 (RatioExceeds(MaxOf(prices[lo..hi]) - first, first, MinDepth) <==>
                    exists j :: lo <= j < hi && prices[j] > first + MinDepth * first))
  {
    if first > 0.0 {
      RatioExceedsPositive(Abs(first - second), first, tolerance);
      if lo < hi {
        RatioExceedsPositive(MaxOf(prices[lo..hi]) - first, first, MinDepth);
        MaxOfSliceAbove(prices, lo, hi, first + MinDepth * first);
      }
    }
  }

  /** The swing points of a series always index into it. */
  lemma SwingPointsIndexIn(prices: seq<real>, window: nat)
    ensures LastTwoIn(prices, SwingHighs(prices, window)) && LastTwoIn(prices, SwingLows(prices, window))
  {
    SwingHighsBelowExact(prices, window, SwingEnd(prices, window));
    SwingLowsBelowExact(prices, window, SwingEnd(prices, window));
  }

  /** The signals of `analyze` that do not depend on a least-squares fit. */
  datatype ChartSignals = ChartSignals(
    ascendingTriangle: bool,
    descendingTriangle: bool,
    doubleTop: bool,
    doubleBottom: bool)

  /** `analyze(candles)`: None below ten candles; otherwise the patterns over the swing points of the closes. */
  function Analyze(cs: seq<Candle>): (r: Option<ChartSignals>)
    ensures r.None? <==> |cs| < MinPatternBars
  {
    if |cs| < MinPatternBars then None
    else
      var closes := Closes(cs);
      var highs, lows := SwingHighs(closes, SwingWindow), SwingLows(closes, SwingWindow);
      SwingPointsIndexIn(closes, SwingWindow);
      Some(ChartSignals(
        IsAscendingTriangle(highs, lows, DefaultTolerance),
        IsDescendingTriangle(highs, lows, DefaultTolerance),
        IsDoubleTop(closes, highs, DefaultTolerance),
        IsDoubleBottom(closes, lows, DefaultTolerance)))
  }

  /**
   * A double top reported by `analyze` on positive closes names two swing
   * highs of the closes, in order, with a close more than 5 % below the
   * first between them; neither of them is a swing low.
   */
  lemma AnalyzeDoubleTop(cs: seq<Candle>)
    requires |cs| >= MinPatternBars && (forall k :: 0 <= k < |cs| ==> cs[k].close > 0.0)
    requires Analyze(cs).value.doubleTop
    ensures var closes := Closes(cs);
            var highs := SwingHighs(closes, SwingWindow);
            |highs| >= 2 &&
            var i, j := highs[|highs| - 2].index, highs[|highs| - 1].index;
            SwingWindow <= i < j < |cs| - SwingWindow &&
            IsSwingHigh(closes, SwingWindow, i) && IsSwingHigh(closes, SwingWindow, j) &&
            !IsSwingLow(closes, SwingWindow, i) && !IsSwingLow(closes, SwingWindow, j) &&
            exists m :: i <= m < j && cs[m].close < cs[i].close - MinDepth * cs[i].close
  {
    var closes := Closes(cs);
    var highs := SwingHighs(closes, SwingWindow);
    SwingPointsIndexIn(closes, SwingWindow);
    SwingHighsBelowExact(closes, SwingWindow, SwingEnd(closes, SwingWindow));
    var i, j := highs[|highs| - 2].index, highs[|highs| - 1].index;
    SwingHighNotLow(closes, SwingWindow, i);
    SwingHighNotLow(closes, SwingWindow, j);
  }
}
