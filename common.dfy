/**
 * Values and numeric helpers shared by every component of the trading bot:
 * the optional value, the OHLCV candle, the trade and trend directions, sums,
 * means and extremes of price sequences, numpy's float64 division, Python's
 * `int()` truncation and `round(x, n)` in exact real arithmetic, ASCII case
 * mapping for side strings, and the append of a bounded `collections.deque`.
 */
module Common {

  datatype Option<T> = None | Some(value: T)

  /** A float64 value as numpy produces it from a division. */
  datatype NpFloat = Finite(v: real) | PosInf | NegInf | NaN

  /** `x / y` on float64: a zero denominator gives an infinity of the numerator's sign, or NaN for 0/0. */
  function NpDiv(x: real, y: real): (r: NpFloat)
    ensures r.Finite? <==> y != 0.0
    ensures r.Finite? ==> r.v * y == x
    ensures r == PosInf <==> y == 0.0 && x > 0.0
    ensures r == NegInf <==> y == 0.0 && x < 0.0
  {
    if y != 0.0 then Finite(x / y)
    else if x > 0.0 then PosInf
    else if x < 0.0 then NegInf
    else NaN
  }

  /** One OHLCV candle; `timestamp` counts microseconds since the epoch. */
  datatype Candle = Candle(timestamp: int, open: real, high: real, low: real, close: real, volume: real)

  /** The "BUY"/"SELL" signal strings of the per-candle strategies. */
  datatype Trade = Buy | Sell

  /** The "BULLISH"/"BEARISH" strings of the analysing strategies. */
  datatype Direction = Bullish | Bearish

  /** The close, high and low columns of a candle list (`np.array([c['close'] for c in candles])`). */
  function Closes(cs: seq<Candle>): (r: seq<real>)
    ensures |r| == |cs| && forall k :: 0 <= k < |cs| ==> r[k] == cs[k].close
  {
    seq(|cs|, k requires 0 <= k < |cs| => cs[k].close)
  }

  function Highs(cs: seq<Candle>): (r: seq<real>)
    ensures |r| == |cs| && forall k :: 0 <= k < |cs| ==> r[k] == cs[k].high
  {
    seq(|cs|, k requires 0 <= k < |cs| => cs[k].high)
  }

  function Lows(cs: seq<Candle>): (r: seq<real>)
    ensures |r| == |cs| && forall k :: 0 <= k < |cs| ==> r[k] == cs[k].low
  {
    seq(|cs|, k requires 0 <= k < |cs| => cs[k].low)
  }

  function Volumes(cs: seq<Candle>): (r: seq<real>)
    ensures |r| == |cs| && forall k :: 0 <= k < |cs| ==> r[k] == cs[k].volume
  {
    seq(|cs|, k requires 0 <= k < |cs| => cs[k].volume)
  }

  function Abs(x: real): (r: real)
    ensures r >= 0.0 && (r == x || r == -x)
  {
    if x < 0.0 then -x else x
  }

  function Max(a: real, b: real): (r: real)
    ensures r >= a && r >= b && (r == a || r == b)
  {
    if a >= b then a else b
  }

  function Min(a: real, b: real): (r: real)
    ensures r <= a && r <= b && (r == a || r == b)
  {
    if a <= b then a else b
  }

  /** Python's `sum`, accumulated from the front; in exact arithmetic the order is immaterial. */
  function Sum(s: seq<real>): real
  {
    if |s| == 0 then 0.0 else Sum(s[..|s| - 1]) + s[|s| - 1]
  }

  function Mean(s: seq<real>): real
    requires |s| > 0
  {
    Sum(s) / |s| as real
  }

  /** Python's `max` of a non-empty list. */
  function MaxOf(s: seq<real>): (r: real)
    requires |s| > 0
    ensures forall k :: 0 <= k < |s| ==> s[k] <= r
    ensures exists k :: 0 <= k < |s| && s[k] == r
  {
    if |s| == 1 then s[0] else Max(MaxOf(s[..|s| - 1]), s[|s| - 1])
  }

  /** Python's `min` of a non-empty list. */
  function MinOf(s: seq<real>): (r: real)
    requires |s| > 0
    ensures forall k :: 0 <= k < |s| ==> r <= s[k]
    ensures exists k :: 0 <= k < |s| && s[k] == r
  {
    if |s| == 1 then s[0] else Min(MinOf(s[..|s| - 1]), s[|s| - 1])
  }

  /** The last `n` elements of `s` (all of them when there are fewer): Python's `s[-n:]` for n >= 1. */
  function LastN<T>(s: seq<T>, n: nat): (r: seq<T>)
    ensures |r| == if |s| < n then |s| else n
    ensures r == s[|s| - |r|..]
  {
    if |s| < n then s else s[|s| - n..]
  }

  lemma {:induction false} SumNonNegative(s: seq<real>)
    requires forall k :: 0 <= k < |s| ==> s[k] >= 0.0
    ensures Sum(s) >= 0.0
  {
    if |s| > 0 {
      SumNonNegative(s[..|s| - 1]);
    }
  }

  lemma {:induction false} SumBounds(s: seq<real>, lo: real, hi: real)
    requires forall k :: 0 <= k < |s| ==> lo <= s[k] <= hi
    ensures |s| as real * lo <= Sum(s) <= |s| as real * hi
  {
    if |s| > 0 {
      SumBounds(s[..|s| - 1], lo, hi);
    }
  }

  lemma {:induction false} SumConcat(a: seq<real>, b: seq<real>)
    ensures Sum(a + b) == Sum(a) + Sum(b)
  {
    if |b| == 0 {
      assert a + b == a;
    } else {
      assert (a + b)[..|a + b| - 1] == a + b[..|b| - 1];
      SumConcat(a, b[..|b| - 1]);
    }
  }

  /** The mean lies between any lower and upper bound of the elements. */
  lemma MeanBounds(s: seq<real>, lo: real, hi: real)
    requires |s| > 0
    requires forall k :: 0 <= k < |s| ==> lo <= s[k] <= hi
    ensures lo <= Mean(s) <= hi
  {
    SumBounds(s, lo, hi);
    var n := |s| as real;
    assert n * lo <= Sum(s) <= n * hi;
    assert Sum(s) / n >= lo by {
      assert Sum(s) >= n * lo;
    }
    assert Sum(s) / n <= hi by {
      assert Sum(s) <= n * hi;
    }
  }

  /** Python's `int(x)` on a float: truncation toward zero. */
  function Trunc(x: real): (r: int)
    ensures x >= 0.0 ==> 0 <= r && r as real <= x < r as real + 1.0
    ensures x < 0.0 ==> r <= 0 && r as real - 1.0 < x <= r as real
  {
    if x >= 0.0 then x.Floor else -((-x).Floor)
  }

  function Pow10(n: nat): (r: nat)
    ensures r >= 1
  {
    if n == 0 then 1 else 10 * Pow10(n - 1)
  }

  /** Rounds a real to the nearest integer, ties to the even one. */
  function RoundToInt(s: real): int
  {
    var k := s.Floor;
    if s - k as real > 0.5 then k + 1
    else if s - k as real < 0.5 then k
    else if k % 2 == 0 then k else k + 1
  }

  lemma RoundToIntNearest(s: real)
    ensures -0.5 <= RoundToInt(s) as real - s <= 0.5
  {
    var k := s.Floor;
    assert 0.0 <= s - k as real < 1.0;
  }

  /** x scaled by 10^n. */
  function Scaled(x: real, n: nat): real
  {
    x * Pow10(n) as real
  }

  /** Python's `round(x, n)` for n >= 0, in exact real arithmetic: the nearest multiple of 10^-n, ties to even. */
  function RoundHalfEven(x: real, n: nat): real
  {
    RoundToInt(Scaled(x, n)) as real / Pow10(n) as real
  }

  /** round(x, n) is within half a unit of the n-th decimal of x. */
  lemma RoundHalfEvenError(x: real, n: nat)
    ensures Abs(RoundHalfEven(x, n) - x) <= 0.5 / Pow10(n) as real
  {
    var p := Pow10(n) as real;
    var m := RoundToInt(Scaled(x, n)) as real;
    RoundToIntNearest(Scaled(x, n));
    assert Scaled(x, n) == x * p;
    DivisionError(m, x, p);
  }

  /** The number m · 10^-n: m whole units of the n-th decimal. */
  function Decimal(m: int, n: nat): real
  {
    m as real / Pow10(n) as real
  }

  /**
   * r is x rounded to n decimals as Python's `round` does: r is a whole
   * number m of n-th decimal units, and any other count of units is strictly
   * farther from x, or equally far while m is even.
   */
  ghost predicate RoundedTo(r: real, x: real, n: nat)
  {
    exists m :: r == Decimal(m, n) &&
      forall k :: Abs(Decimal(k, n) - x) <= Abs(r - x) ==>
        k == m || (Abs(Decimal(k, n) - x) == Abs(r - x) && m % 2 == 0)
  }

  /** No integer is nearer to s than RoundToInt(s); an equally near one is it, or RoundToInt(s) is even. */
  lemma RoundToIntBest(s: real, k: int)
    ensures Abs(k as real - s) >= Abs(RoundToInt(s) as real - s)
    ensures Abs(k as real - s) == Abs(RoundToInt(s) as real - s) ==> k == RoundToInt(s) || RoundToInt(s) % 2 == 0
  {
    var f := s.Floor;
    assert f as real <= s < f as real + 1.0;
    if k <= f {
      assert Abs(k as real - s) == s - k as real;
    } else {
      assert k >= f + 1;
      assert Abs(k as real - s) == k as real - s;
    }
  }

  /** For p > 0, d = a/p and s = x · p: |d - x| · p = |a - s|. */
  lemma ScaleAbs(a: real, x: real, p: real, d: real, s: real)
    requires p > 0.0 && d == a / p && s == x * p
    ensures Abs(d - x) * p == Abs(a - s)
  {
    assert d * p == a;
    assert (d - x) * p == a - s;
    if d - x >= 0.0 {
      MulMonotone(0.0, d - x, p);
    } else {
      MulMonotone(d - x, 0.0, p);
    }
  }

  /** Distances to x scale with the units: |Decimal(k, n) - x| · 10^n = |k - x · 10^n|. */
  lemma DecimalDistance(k: int, x: real, n: nat)
    ensures Abs(Decimal(k, n) - x) * Pow10(n) as real == Abs(k as real - Scaled(x, n))
  {
    ScaleAbs(k as real, x, Pow10(n) as real, Decimal(k, n), Scaled(x, n));
  }

  /**
   * Two distances a, b whose scaled values are A = a·p and B = b·p (p > 0): when the
   * scaled comparison says B is nearest, with ties only towards an even m, so does
   * the unscaled one.
   */
  lemma NearestUnscaled(a: real, b: real, bigA: real, bigB: real, p: real, k: int, m: int)
    requires p > 0.0 && a * p == bigA && b * p == bigB
    requires bigA >= bigB && (bigA == bigB ==> k == m || m % 2 == 0)
    ensures a <= b ==> k == m || (a == b && m % 2 == 0)
  {
    if a <= b {
      MulOrder(a, b, p);
    }
  }

  /** A count of units m that is nearest to x · 10^n among the integers makes Decimal(m, n) nearest to x. */
  lemma DecimalNearest(x: real, n: nat, k: int, m: int)
    requires Abs(k as real - Scaled(x, n)) >= Abs(m as real - Scaled(x, n))
    requires Abs(k as real - Scaled(x, n)) == Abs(m as real - Scaled(x, n)) ==> k == m || m % 2 == 0
    ensures Abs(Decimal(k, n) - x) <= Abs(Decimal(m, n) - x) ==>
              k == m || (Abs(Decimal(k, n) - x) == Abs(Decimal(m, n) - x) && m % 2 == 0)
  {
    DecimalDistance(k, x, n);
    DecimalDistance(m, x, n);
    NearestUnscaled(Abs(Decimal(k, n) - x), Abs(Decimal(m, n) - x),
      Abs(k as real - Scaled(x, n)), Abs(m as real - Scaled(x, n)), Pow10(n) as real, k, m);
  }

  /** No count of units k is nearer to x than `round(x, n)`; an equally near one is that count, or the count is even. */
  lemma RoundHalfEvenBest(x: real, n: nat, k: int)
    ensures var m := RoundToInt(Scaled(x, n));
            Abs(Decimal(k, n) - x) <= Abs(Decimal(m, n) - x) ==>
              k == m || (Abs(Decimal(k, n) - x) == Abs(Decimal(m, n) - x) && m % 2 == 0)
  {
    RoundToIntBest(Scaled(x, n), k);
    DecimalNearest(x, n, k, RoundToInt(Scaled(x, n)));
  }

  /** `round(x, n)` is the n-decimal number nearest to x, ties going to the even count of units. */
  lemma RoundHalfEvenRounds(x: real, n: nat)
    ensures RoundedTo(RoundHalfEven(x, n), x, n)
  {
    var m := RoundToInt(Scaled(x, n));
    var r := RoundHalfEven(x, n);
    assert r == Decimal(m, n);
    forall k | Abs(Decimal(k, n) - x) <= Abs(r - x)
      ensures k == m || (Abs(Decimal(k, n) - x) == Abs(r - x) && m % 2 == 0)
    {
      RoundHalfEvenBest(x, n, k);
    }
  }

  lemma DivMonotone(a: real, b: real, p: real)
    requires a <= b && p > 0.0
    ensures a / p <= b / p
  {
    assert b / p - a / p == (b - a) / p;
  }

  /** |m/p - x| = |m - x*p| / p for p > 0. */
  lemma DivisionError(m: real, x: real, p: real)
    requires p >= 1.0
    requires -0.5 <= m - x * p <= 0.5
    ensures Abs(m / p - x) <= 0.5 / p
  {
    var d := m / p - x;
    assert d * p == m - x * p;
    var e := Abs(d);
    assert e * p <= 0.5;
    assert e * p / p == e;
    DivMonotone(e * p, 0.5, p);
  }

  lemma MulStrict(a: real, b: real, p: real)
    requires a < b && p > 0.0
    ensures a * p < b * p
  {
    assert b * p - a * p == (b - a) * p;
  }

  lemma MulMonotone(a: real, b: real, p: real)
    requires a <= b && p >= 0.0
    ensures a * p <= b * p
  {
    assert b * p - a * p == (b - a) * p;
  }

  lemma MulNonNegative(a: real, b: real)
    ensures a >= 0.0 && b >= 0.0 ==> a * b >= 0.0
  {
  }

  /** Multiplying by a positive factor keeps the strict order in both directions. */
  lemma MulOrder(a: real, b: real, p: real)
    requires p > 0.0
    ensures a > b <==> a * p > b * p
    ensures a < b <==> a * p < b * p
  {
    if a > b {
      MulStrict(b, a, p);
    } else {
      MulMonotone(a, b, p);
    }
    if a < b {
      MulStrict(a, b, p);
    } else {
      MulMonotone(b, a, p);
    }
  }

  /** Dividing by a positive number compares like multiplying the bound by it. */
  lemma DivOrder(x: real, p: real, b: real)
    requires p > 0.0
    ensures x / p > b <==> x > b * p
    ensures x / p < b <==> x < b * p
  {
    var q := x / p;
    assert q * p == x;
    MulOrder(q, b, p);
  }

  function UpperChar(c: char): char
  {
    if 'a' <= c <= 'z' then (c as int - 32) as char else c
  }

  function LowerChar(c: char): char
  {
    if 'A' <= c <= 'Z' then (c as int + 32) as char else c
  }

  /** Python's `str.upper()` restricted to ASCII letters. */
  function Upper(s: string): (r: string)
    ensures |r| == |s|
    ensures forall k :: 0 <= k < |s| ==> r[k] == UpperChar(s[k])
  {
    seq(|s|, k requires 0 <= k < |s| => UpperChar(s[k]))
  }

  /** Python's `str.lower()` restricted to ASCII letters. */
  function Lower(s: string): (r: string)
    ensures |r| == |s|
    ensures forall k :: 0 <= k < |s| ==> r[k] == LowerChar(s[k])
  {
    seq(|s|, k requires 0 <= k < |s| => LowerChar(s[k]))
  }

  /**
   * `d.append(x)` on a `collections.deque(maxlen=maxlen)`: the element goes at
   * the right and, when the deque is full, the leftmost element is dropped.
   */
  function DequePush<T>(s: seq<T>, x: T, maxlen: nat): (r: seq<T>)
    ensures |r| == if |s| + 1 <= maxlen then |s| + 1 else maxlen
    ensures maxlen > 0 ==> r[|r| - 1] == x
  {
    if |s| + 1 <= maxlen then s + [x] else (s + [x])[|s| + 1 - maxlen..]
  }

  /** The deque keeps the newest items: the pushed item after the last |r| - 1 items that were there. */
  lemma DequePushContents<T>(s: seq<T>, x: T, maxlen: nat)
    requires maxlen > 0
    ensures var r := DequePush(s, x, maxlen);
            r == s[|s| + 1 - |r|..] + [x] && (|s| < maxlen ==> r == s + [x])
  {
    var r := DequePush(s, x, maxlen);
    assert (s + [x])[|s| + 1 - |r|..] == s[|s| + 1 - |r|..] + [x];
  }
}
