/**
 * The closed-form risk helpers of trading/trade_utils.py (position size from
 * a risk budget, the Kelly fraction, the risk of ruin, the funding cost), the
 * maximum drawdown of a price series, and the bar-by-bar backtest that
 * compounds a unit balance through a sequence of position signals.
 */
module TradeUtils {
  import opened Common

  // ---------------------------------------------------------------------------
  // Closed-form helpers

  /**
   * `calculate_position_size`: a zero stop sizes nothing; otherwise losing
   * the stop fraction of the position loses exactly the risk budget
   * `balance * riskPerTrade`.
   */
  function PositionSize(balance: real, riskPerTrade: real, stopLossPct: real): (r: real)
    ensures stopLossPct == 0.0 ==> r == 0.0
    ensures stopLossPct != 0.0 ==> r * stopLossPct == balance * riskPerTrade
  {
    if stopLossPct == 0.0 then 0.0 else balance * riskPerTrade / stopLossPct
  }

  /**
   * `calculate_kelly_criterion`: (w R - (1 - w)) / R; Python raises
   * ZeroDivisionError for R = 0. With a positive payoff ratio the fraction is
   * positive exactly when the expected gain w R exceeds the loss probability
   * 1 - w, zero at break even, and never above the win rate.
   */
  function Kelly(winRate: real, winLossRatio: real): (r: real)
    requires winLossRatio != 0.0
    ensures winLossRatio > 0.0 ==>
              (r > 0.0 <==> winRate * winLossRatio > 1.0 - winRate) &&
              (r == 0.0 <==> winRate * winLossRatio == 1.0 - winRate) &&
              (winRate <= 1.0 ==> r <= winRate)
  {
    var edge := winRate * winLossRatio - (1.0 - winRate);
    KellyOrder(edge, winLossRatio, winRate);
    edge / winLossRatio
  }

  /** The order facts behind `Kelly`, over an abstract edge. */
  lemma KellyOrder(edge: real, ratio: real, winRate: real)
    requires edge == winRate * ratio - (1.0 - winRate)
    ensures ratio > 0.0 ==>
              (edge / ratio > 0.0 <==> winRate * ratio > 1.0 - winRate) &&
              (edge / ratio == 0.0 <==> winRate * ratio == 1.0 - winRate) &&
              (winRate <= 1.0 ==> edge / ratio <= winRate)
  {
    if ratio > 0.0 {
      DivOrder(edge, ratio, 0.0);
      DivOrder(edge, ratio, winRate);
    }
  }

  /**
   * `calculate_risk_of_ruin`: 1.0 for a win rate of at most one half or a
   * risk of at least 1. The formula branch always yields a negative number,
   * so the result is never a probability strictly between 0 and 1.
   */
  function RiskOfRuin(winRate: real, riskPerTrade: real): (r: real)
    ensures r == 1.0 <==> winRate <= 0.5 || riskPerTrade >= 1.0
    ensures !(winRate <= 0.5 || riskPerTrade >= 1.0) ==> r < 0.0
  {
    if winRate <= 0.5 || riskPerTrade >= 1.0 then 1.0
    else
      var q := (1.0 - 2.0 * winRate) / (1.0 - riskPerTrade);
      NegativeQuotient(1.0 - 2.0 * winRate, 1.0 - riskPerTrade);
      q
  }

  /** A negative number over a positive one is negative. */
  lemma NegativeQuotient(a: real, b: real)
    requires a < 0.0 && b > 0.0
    ensures a / b < 0.0
  {
    DivOrder(a, b, 0.0);
  }

  /**
   * `calculate_funding_cost`: position value times rate times the fraction
   * of a 365-day year; a full year costs value times rate, and a cost whose
   * value-rate product and period are both non-negative is non-negative.
   */
  function FundingCost(positionValue: real, fundingRate: real, days: real): (r: real)
    ensures days == 365.0 ==> r == positionValue * fundingRate
    ensures positionValue * fundingRate >= 0.0 && days >= 0.0 ==> r >= 0.0
  {
    NonNegativeProduct(positionValue * fundingRate, days);
    positionValue * fundingRate * days / 365.0
  }

  /** A product of two non-negative numbers is non-negative. */
  lemma NonNegativeProduct(a: real, b: real)
    ensures a >= 0.0 && b >= 0.0 ==> a * b >= 0.0
  {
    if a >= 0.0 && b >= 0.0 {
      MulMonotone(0.0, a, b);
    }
  }

  /** The funding cost is additive in the position value and in the holding period, and a full year costs value times rate. */
  lemma FundingCostLinear(v1: real, v2: real, rate: real, d1: real, d2: real)
    ensures FundingCost(v1 + v2, rate, d1) == FundingCost(v1, rate, d1) + FundingCost(v2, rate, d1)
    ensures FundingCost(v1, rate, d1 + d2) == FundingCost(v1, rate, d1) + FundingCost(v1, rate, d2)
    ensures FundingCost(v1, rate, 365.0) == v1 * rate
  {
    assert (v1 + v2) * rate * d1 == v1 * rate * d1 + v2 * rate * d1;
    assert v1 * rate * (d1 + d2) == v1 * rate * d1 + v1 * rate * d2;
  }

  // ---------------------------------------------------------------------------
  // Maximum drawdown

  /** The running peak `prices.expanding().max()` at index i. */
  function Peak(prices: seq<real>, i: nat): (r: real)
    requires i < |prices|
    ensures forall k :: 0 <= k <= i ==> prices[k] <= r
    ensures exists k :: 0 <= k <= i && prices[k] == r
  {
    MaxOf(prices[..i + 1])
  }

  /**
   * The drawdown (p_i - peak_i) / peak_i at index i, divided as pandas divides
   * float64 series: a zero peak gives -inf below it and NaN at it.
   */
  function DrawdownAt(prices: seq<real>, i: nat): NpFloat
    requires i < |prices|
  {
    var p := Peak(prices, i);
    NpDiv(prices[i] - p, p)
  }

  /** The drawdown series, index by index. */
  function Drawdowns(prices: seq<real>): (r: seq<NpFloat>)
    ensures |r| == |prices|
    ensures forall i :: 0 <= i < |r| ==> r[i] == DrawdownAt(prices, i)
  {
    seq(|prices|, i requires 0 <= i < |prices| => DrawdownAt(prices, i))
  }

  /** The order of non-NaN float64 values: -inf below every finite value, +inf above. */
  predicate NpLe(a: NpFloat, b: NpFloat)
  {
    match a
    case NegInf => b != NaN
    case Finite(v) => b == PosInf || (b.Finite? && v <= b.v)
    case PosInf => b == PosInf
    case NaN => false
  }

  /**
   * pandas' `Series.min()`: the least value, skipping NaN; NaN for an empty
   * series or one that is NaN throughout.
   */
  function NanMin(xs: seq<NpFloat>): (r: NpFloat)
    ensures r == NaN <==> forall i :: 0 <= i < |xs| ==> xs[i] == NaN
    ensures r != NaN ==> r in xs && forall i :: 0 <= i < |xs| && xs[i] != NaN ==> NpLe(r, xs[i])
  {
    if |xs| == 0 then NaN
    else
      var rest := NanMin(xs[1..]);
      assert forall i :: 1 <= i < |xs| ==> xs[i] == xs[1..][i - 1];
      if xs[0] == NaN then rest
      else if rest == NaN || NpLe(xs[0], rest) then xs[0]
      else rest
  }

  /**
   * `calculate_max_drawdown`: the least drawdown, skipping NaN; NaN exactly
   * when every drawdown is NaN (an empty series among them).
   */
  function MaxDrawdown(prices: seq<real>): (r: NpFloat)
    ensures r == NaN <==> forall i :: 0 <= i < |prices| ==> DrawdownAt(prices, i) == NaN
    ensures r != NaN ==>
              (exists i :: 0 <= i < |prices| && r == DrawdownAt(prices, i)) &&
              forall i :: 0 <= i < |prices| && DrawdownAt(prices, i) != NaN ==> NpLe(r, DrawdownAt(prices, i))
  {
    NanMin(Drawdowns(prices))
  }

  /** One drawdown of a positive series is finite and lies in (-1, 0], and it is 0 exactly at a new peak. */
  lemma DrawdownBounds(prices: seq<real>, i: nat)
    requires i < |prices| && prices[i] > 0.0
    ensures DrawdownAt(prices, i).Finite?
    ensures -1.0 < DrawdownAt(prices, i).v <= 0.0
    ensures DrawdownAt(prices, i).v == 0.0 <==> prices[i] == Peak(prices, i)
  {
    var p := Peak(prices, i);
    assert prices[i] <= p;
    assert DrawdownAt(prices, i) == Finite((prices[i] - p) / p);
    DivOrder(prices[i] - p, p, 0.0);
    DivOrder(prices[i] - p, p, -1.0);
  }

  /**
   * The maximum drawdown of a non-empty positive series is a finite number in
   * (-1, 0], and it is exactly 0 when the series never falls.
   */
  lemma MaxDrawdownBounds(prices: seq<real>)
    requires forall k :: 0 <= k < |prices| ==> prices[k] > 0.0
    requires |prices| > 0
    ensures MaxDrawdown(prices).Finite?
    ensures -1.0 < MaxDrawdown(prices).v <= 0.0
    ensures (forall i, j :: 0 <= i <= j < |prices| ==> prices[i] <= prices[j]) ==> MaxDrawdown(prices).v == 0.0
  {
    var ds := Drawdowns(prices);
    DrawdownBounds(prices, 0);
    var m := NanMin(ds);
    var k :| 0 <= k < |ds| && ds[k] == m;
    DrawdownBounds(prices, k);
    if forall i, j :: 0 <= i <= j < |prices| ==> prices[i] <= prices[j] {
      var p := Peak(prices, k);
      var w :| 0 <= w <= k && prices[w] == p;
      assert prices[w] <= prices[k];
    }
  }

  /**
   * A price below a zero running peak divides a negative number by zero:
   * that drawdown is -inf, and so is the maximum drawdown.
   */
  lemma MaxDrawdownZeroPeak(prices: seq<real>, i: nat)
    requires i < |prices| && Peak(prices, i) == 0.0 && prices[i] < 0.0
    ensures DrawdownAt(prices, i) == NegInf
    ensures MaxDrawdown(prices) == NegInf
  {
    var ds := Drawdowns(prices);
    assert ds[i] == NegInf;
  }

  /** A series of zeros divides 0 by 0 at every index: every drawdown is NaN, and so is the maximum drawdown. */
  lemma MaxDrawdownAllZero(prices: seq<real>)
    requires forall k :: 0 <= k < |prices| ==> prices[k] == 0.0
    ensures MaxDrawdown(prices) == NaN
  {
    var ds := Drawdowns(prices);
    forall i | 0 <= i < |ds|
      ensures ds[i] == NaN
    {
      assert Peak(prices, i) == 0.0;
    }
  }

  // ---------------------------------------------------------------------------
  // The backtest loop

  /** One entry of the `trades` list. */
  datatype BacktestTrade = BacktestTrade(entry: real, position: int, balance: real)

  /** The result dict without its Sharpe ratio. */
  datatype BacktestResult = BacktestResult(finalBalance: real, returnPct: real, trades: seq<BacktestTrade>)

  /** x ** k for an integer exponent, as Python computes it on floats (a negative k divides). */
  function Power(x: real, k: int): real
    requires x != 0.0 || k >= 0
    decreases if k >= 0 then k else -k
  {
    if k == 0 then 1.0
    else if k > 0 then x * Power(x, k - 1)
    else Power(x, k + 1) / x
  }

  lemma {:induction false} PowerPositive(x: real, k: int)
    requires x > 0.0
    ensures Power(x, k) > 0.0
    decreases if k >= 0 then k else -k
  {
    if k > 0 {
      PowerPositive(x, k - 1);
      MulStrict(0.0, Power(x, k - 1), x);
    } else if k < 0 {
      PowerPositive(x, k + 1);
    }
  }

  /**
   * What the loop reads without raising: a signal for every bar from 1 on
   * (none at all when there is at most one price), and while a position is
   * held no zero price to divide by (the old price, and the new one when the
   * exponent is negative). The first signal is never read.
   */
  predicate BacktestInputs(prices: seq<real>, signals: seq<int>)
  {
    (|prices| <= 1 || |signals| >= |prices|) &&
    forall k :: 1 <= k < |prices| - 1 && signals[k] != 0 ==> prices[k] != 0.0 && (signals[k] < 0 ==> prices[k + 1] != 0.0)
  }

  /** The loop state: the position held, the balance and the trades so far. */
  datatype BacktestState = BacktestState(position: int, balance: real, trades: seq<BacktestTrade>)

  /** A balance after paying the commission on it. */
  function Charge(balance: real, commission: real): real
  {
    balance * (1.0 - commission)
  }

  lemma ChargePositive(balance: real, commission: real)
    requires balance > 0.0 && commission < 1.0
    ensures Charge(balance, commission) > 0.0
  {
    MulStrict(0.0, balance, 1.0 - commission);
  }

  /** The balance after marking a held position from bar i - 1 to bar i and paying the commission. */
  function Held(prices: seq<real>, signals: seq<int>, commission: real, st: BacktestState, i: nat): real
    requires BacktestInputs(prices, signals) && 1 <= i < |prices|
    requires st.position == 0 || (i >= 2 && st.position == signals[i - 1])
  {
    if st.position != 0 then Charge(st.balance * Power(prices[i] / prices[i - 1], st.position), commission)
    else st.balance
  }

  /**
   * Bar i of the loop: a held position is marked to the new price and pays
   * the commission; the new signal becomes the position; a non-zero one pays
   * the commission again and records a trade.
   */
  function BarStep(prices: seq<real>, signals: seq<int>, commission: real, st: BacktestState, i: nat): BacktestState
    requires BacktestInputs(prices, signals) && 1 <= i < |prices|
    requires st.position == 0 || (i >= 2 && st.position == signals[i - 1])
  {
    var held := Held(prices, signals, commission, st, i);
    var position := signals[i];
    if position != 0 then
      var balance := Charge(held, commission);
      BacktestState(position, balance, st.trades + [BacktestTrade(prices[i], position, balance)])
    else
      BacktestState(position, held, st.trades)
  }

  /** The state after bars 1 .. n - 1. */
  function Run(prices: seq<real>, signals: seq<int>, commission: real, n: nat): (st: BacktestState)
    requires BacktestInputs(prices, signals) && 1 <= n <= |prices|
    ensures n == 1 ==> st.position == 0
    ensures n > 1 ==> st.position == signals[n - 1]
  {
    if n == 1 then BacktestState(0, 1.0, [])
    else BarStep(prices, signals, commission, Run(prices, signals, commission, n - 1), n - 1)
  }

  /** The indices i >= 1 below n whose signal is non-zero, in order. */
  function SignalBars(signals: seq<int>, n: nat): (r: seq<nat>)
    requires n <= 1 || n <= |signals|
    ensures forall k :: 0 <= k < |r| ==> 1 <= r[k] < n && signals[r[k]] != 0
  {
    if n <= 1 then []
    else if signals[n - 1] != 0 then SignalBars(signals, n - 1) + [n - 1]
    else SignalBars(signals, n - 1)
  }

  /**
   * A trade is recorded exactly at the bars with a non-zero signal (the
   * first signal is never read): the k-th trade enters at the price of the
   * k-th such bar with that bar's signal as its position.
   */
  lemma {:induction false} TradesAtSignals(prices: seq<real>, signals: seq<int>, commission: real, n: nat)
    requires BacktestInputs(prices, signals) && 1 <= n <= |prices|
    ensures var trades := Run(prices, signals, commission, n).trades;
            var bars := SignalBars(signals, n);
            |trades| == |bars| &&
            forall k :: 0 <= k < |trades| ==> trades[k].entry == prices[bars[k]] && trades[k].position == signals[bars[k]]
  {
    if n > 1 {
      TradesAtSignals(prices, signals, commission, n - 1);
    }
  }

  /** Positive prices and a commission below 1 keep a positive balance positive across a bar. */
  lemma HeldPositive(prices: seq<real>, signals: seq<int>, commission: real, st: BacktestState, i: nat)
    requires BacktestInputs(prices, signals) && 1 <= i < |prices|
    requires st.position == 0 || (i >= 2 && st.position == signals[i - 1])
    requires prices[i] > 0.0 && prices[i - 1] > 0.0 && commission < 1.0 && st.balance > 0.0
    ensures Held(prices, signals, commission, st, i) > 0.0
  {
    if st.position != 0 {
      var power := Power(prices[i] / prices[i - 1], st.position);
      PowerPositive(prices[i] / prices[i - 1], st.position);
      MulStrict(0.0, st.balance, power);
      ChargePositive(st.balance * power, commission);
    }
  }

  /** Every balance a state holds or has recorded is positive. */
  predicate Solvent(st: BacktestState)
  {
    st.balance > 0.0 && forall k :: 0 <= k < |st.trades| ==> st.trades[k].balance > 0.0
  }

  /** One bar keeps a solvent state solvent when prices are positive and the commission is below 1. */
  lemma BarStepSolvent(prices: seq<real>, signals: seq<int>, commission: real, st: BacktestState, i: nat)
    requires BacktestInputs(prices, signals) && 1 <= i < |prices|
    requires st.position == 0 || (i >= 2 && st.position == signals[i - 1])
    requires prices[i] > 0.0 && prices[i - 1] > 0.0 && commission < 1.0 && Solvent(st)
    ensures Solvent(BarStep(prices, signals, commission, st, i))
  {
    HeldPositive(prices, signals, commission, st, i);
    var held := Held(prices, signals, commission, st, i);
    if signals[i] != 0 {
      ChargePositive(held, commission);
    }
  }

  /** With positive prices and a commission below 1 the balance stays positive, and so does every recorded balance. */
  lemma {:induction false} BalancePositive(prices: seq<real>, signals: seq<int>, commission: real, n: nat)
    requires BacktestInputs(prices, signals) && 1 <= n <= |prices|
    requires forall k :: 0 <= k < |prices| ==> prices[k] > 0.0
    requires commission < 1.0
    ensures Solvent(Run(prices, signals, commission, n))
  {
    if n > 1 {
      BalancePositive(prices, signals, commission, n - 1);
      BarStepSolvent(prices, signals, commission, Run(prices, signals, commission, n - 1), n - 1);
    }
  }

  /** `backtest_strategy(prices, signals, commission)` without the Sharpe ratio. */
  method BacktestStrategy(prices: seq<real>, signals: seq<int>, commission: real) returns (result: BacktestResult)
    requires BacktestInputs(prices, signals)
    ensures |prices| >= 1 ==> var st := Run(prices, signals, commission, |prices|);
                              result == BacktestResult(st.balance, (st.balance - 1.0) * 100.0, st.trades)
    ensures |prices| == 0 ==> result == BacktestResult(1.0, 0.0, [])
  {
    var position := 0;
    var balance := 1.0;
    var trades: seq<BacktestTrade> := [];
    var i := 1;
    while i < |prices|
      invariant 1 <= i && (|prices| >= 1 ==> i <= |prices|)
      invariant |prices| >= 1 ==> Run(prices, signals, commission, i) == BacktestState(position, balance, trades)
      invariant |prices| == 0 ==> position == 0 && balance == 1.0 && trades == []
    {
      ghost var before := BacktestState(position, balance, trades);
      if position != 0 {
        balance := balance * Power(prices[i] / prices[i - 1], position);
        balance := Charge(balance, commission);
      }
      position := signals[i];
      if position != 0 {
        balance := Charge(balance, commission);
        trades := trades + [BacktestTrade(prices[i], position, balance)];
      }
      assert BarStep(prices, signals, commission, before, i) == BacktestState(position, balance, trades);
      i := i + 1;
    }
    result := BacktestResult(balance, (balance - 1.0) * 100.0, trades);
  }
}
