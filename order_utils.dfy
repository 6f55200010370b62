/**
 * Order sizing, fee-aware profit and loss, price formatting and order
 * validation (trading/order_utils.py). Everything here is a pure function of
 * its inputs and of the exchange configuration, which the source imports from
 * its configuration module and which is a parameter here.
 */
module OrderUtils {
  import opened Common

  /** TRADE_AMOUNT_USDT, MIN_NOTIONAL, the two commission rates and the per-symbol precisions. */
  datatype OrderConfig = OrderConfig(
    tradeAmountUsdt: real,
    minNotional: real,
    spotCommissionRate: real,
    futuresCommissionRate: real,
    quantityPrecision: map<string, nat>,
    pricePrecision: map<string, nat>)

  /** (quantity, notional_value, estimated_fee) as `calculate_quantity` returns them. */
  datatype Sizing = Sizing(quantity: real, notional: real, estimatedFee: real)

  /** (pnl_usdt, pnl_percent, total_fees) as `calculate_pnl` returns them. */
  datatype Pnl = Pnl(pnlUsdt: real, pnlPercent: real, totalFees: real)

  /** The failure messages of `validate_order`; the first carries the notional it reports. */
  datatype OrderError = NotionalBelowMinimum(notional: real) | InvalidQuantity | InvalidPrice

  /** The spot rate exactly for market type "spot"; every other market type pays the futures rate. */
  function CommissionRate(cfg: OrderConfig, marketType: string): (r: real)
    ensures marketType == "spot" ==> r == cfg.spotCommissionRate
    ensures marketType != "spot" ==> r == cfg.futuresCommissionRate
  {
    if marketType == "spot" then cfg.spotCommissionRate else cfg.futuresCommissionRate
  }

  // ---------------------------------------------------------------------------
  // round_step_size

  /** `text.rstrip('0')`. */
  function StripTrailingZeros(text: string): (r: string)
    ensures |r| <= |text| && r == text[..|r|]
    ensures |r| > 0 ==> r[|r| - 1] != '0'
    ensures forall k :: |r| <= k < |text| ==> text[k] == '0'
  {
    if |text| > 0 && text[|text| - 1] == '0' then StripTrailingZeros(text[..|text| - 1]) else text
  }

  /** `text.split('.')[-1]`: what follows the last '.', or all of `text` when it has none. */
  function AfterLastDot(text: string): (r: string)
    ensures |r| <= |text| && r == text[|text| - |r|..]
    ensures '.' !in r
    ensures |r| < |text| ==> text[|text| - |r| - 1] == '.'
  {
    if |text| == 0 then ""
    else if text[|text| - 1] == '.' then ""
    else AfterLastDot(text[..|text| - 1]) + [text[|text| - 1]]
  }

  /**
   * The number of decimals `round_step_size` keeps for a step below one:
   * `len(str(step_size).rstrip('0').split('.')[-1])`, where `stepText` is the
   * text Python prints for the step.
   */
  function StepPrecision(stepText: string): nat
  {
    |AfterLastDot(StripTrailingZeros(stepText))|
  }

  /**
   * For a step written as "0.d1...dn" followed by any number of zeros, with dn
   * not '0', the precision is n: the count of significant decimals.
   */
  lemma StepPrecisionOfDecimal(digits: string, zeros: nat)
    requires |digits| > 0 && digits[|digits| - 1] != '0' && '.' !in digits
    ensures StepPrecision("0." + digits + seq(zeros, _ => '0')) == |digits|
  {
    var text := "0." + digits + seq(zeros, _ => '0');
    StripZerosOf(digits, "0.", zeros);
    assert StripTrailingZeros(text) == "0." + digits;
    AfterDotOf("0", digits);
    assert "0." + digits == "0" + "." + digits;
  }

  lemma {:induction false} StripZerosOf(digits: string, prefix: string, zeros: nat)
    requires |digits| > 0 && digits[|digits| - 1] != '0'
    ensures StripTrailingZeros(prefix + digits + seq(zeros, _ => '0')) == prefix + digits
  {
    var text := prefix + digits + seq(zeros, _ => '0');
    if zeros > 0 {
      assert text[..|text| - 1] == prefix + digits + seq(zeros - 1, _ => '0');
      StripZerosOf(digits, prefix, zeros - 1);
    } else {
      assert text == prefix + digits;
    }
  }

  lemma {:induction false} AfterDotOf(head: string, tail: string)
    requires '.' !in tail
    ensures AfterLastDot(head + "." + tail) == tail
  {
    var text := head + "." + tail;
    if |tail| > 0 {
      assert text[..|text| - 1] == head + "." + tail[..|tail| - 1];
      AfterDotOf(head, tail[..|tail| - 1]);
      assert tail == tail[..|tail| - 1] + [tail[|tail| - 1]];
    }
  }

  /**
   * `round_step_size(quantity, step_size)`: a step of one or more truncates
   * the quantity toward zero to a whole number; a smaller step rounds it to
   * StepPrecision(stepText) decimals.
   */
  function RoundStepSize(quantity: real, step: real, stepText: string): (r: real)
    ensures step >= 1.0 ==> r.Floor as real == r && Abs(r) <= Abs(quantity) < Abs(r) + 1.0
    ensures step >= 1.0 ==> (quantity >= 0.0 ==> r >= 0.0) && (quantity <= 0.0 ==> r <= 0.0)
    ensures step < 1.0 ==> Abs(r - quantity) <= 0.5 / Pow10(StepPrecision(stepText)) as real
    ensures step < 1.0 ==> RoundedTo(r, quantity, StepPrecision(stepText))
  {
    if step >= 1.0 then Trunc(quantity) as real
    else
      RoundHalfEvenError(quantity, StepPrecision(stepText));
      RoundHalfEvenRounds(quantity, StepPrecision(stepText));
      RoundHalfEven(quantity, StepPrecision(stepText))
  }

  // ---------------------------------------------------------------------------
  // calculate_quantity

  /** `QUANTITY_PRECISION.get(symbol, 3)`. */
  function QuantityPrecision(cfg: OrderConfig, symbol: string): nat
  {
    if symbol in cfg.quantityPrecision then cfg.quantityPrecision[symbol] else 3
  }

  /**
   * The quantity before rounding: the budget (TRADE_AMOUNT_USDT when none is
   * given) over the price, shrunk by 1.1 times the commission rate for a spot
   * SELL only.
   */
  function BaseQuantity(cfg: OrderConfig, price: real, marketType: string, tradeAmount: Option<real>, side: string): real
    requires price != 0.0
  {
    var amount := if tradeAmount.None? then cfg.tradeAmountUsdt else tradeAmount.value;
    var quantity := amount / price;
    if marketType == "spot" && Upper(side) == "SELL" then
      quantity * (1.0 - CommissionRate(cfg, marketType) * 1.1)
    else
      quantity
  }

  /** `int(q)` at precision 0, `round(q, precision)` otherwise. */
  function RoundQuantity(q: real, precision: nat): real
  {
    if precision == 0 then Trunc(q) as real else RoundHalfEven(q, precision)
  }

  /**
   * The minimum-notional bump-up, as written: 1.01 * MIN_NOTIONAL / price,
   * then `int(...) + 1` at precision 0 and `round(..., precision)` otherwise.
   */
  function BumpedQuantity(cfg: OrderConfig, price: real, precision: nat): real
    requires price != 0.0
  {
    var quantity := (cfg.minNotional / price) * 1.01;
    if precision == 0 then (Trunc(quantity) + 1) as real else RoundHalfEven(quantity, precision)
  }

  /**
   * `calculate_quantity(symbol, price, market_type, trade_amount, side)`.
   * Whichever path is taken, the notional is quantity * price and the fee is
   * notional * rate; the rounded base quantity is kept exactly when its
   * notional reaches MIN_NOTIONAL, and the bumped quantity replaces it
   * otherwise.
   */
  function CalculateQuantity(cfg: OrderConfig, symbol: string, price: real, marketType: string,
                             tradeAmount: Option<real>, side: string): (r: Sizing)
    requires price != 0.0
    ensures r.notional == r.quantity * price
    ensures r.estimatedFee == Fee(r.notional, CommissionRate(cfg, marketType))
    ensures var q := RoundQuantity(BaseQuantity(cfg, price, marketType, tradeAmount, side), QuantityPrecision(cfg, symbol));
            r.quantity == if Notional(q, price) < cfg.minNotional then BumpedQuantity(cfg, price, QuantityPrecision(cfg, symbol)) else q
  {
    var precision := QuantityPrecision(cfg, symbol);
    var quantity := RoundQuantity(BaseQuantity(cfg, price, marketType, tradeAmount, side), precision);
    var bumped := BumpedQuantity(cfg, price, precision);
    SizeWithMinimum(quantity, bumped, price, CommissionRate(cfg, marketType), cfg.minNotional)
  }

  /** quantity * price. */
  function Notional(quantity: real, price: real): real
  {
    quantity * price
  }

  /** Keeps `quantity` when its notional reaches the minimum and takes `bumped` otherwise. */
  function SizeWithMinimum(quantity: real, bumped: real, price: real, rate: real, minNotional: real): (r: Sizing)
    ensures r.notional == Notional(r.quantity, price)
    ensures r.estimatedFee == Fee(r.notional, rate)
    ensures r.quantity == if Notional(quantity, price) < minNotional then bumped else quantity
  {
    var chosen := if Notional(quantity, price) < minNotional then bumped else quantity;
    var notional := Notional(chosen, price);
    Sizing(chosen, notional, Fee(notional, rate))
  }

  /** notional * commission rate. */
  function Fee(notional: real, rate: real): real
  {
    notional * rate
  }

  /** A missing trade amount behaves exactly like TRADE_AMOUNT_USDT. */
  lemma TradeAmountDefault(cfg: OrderConfig, symbol: string, price: real, marketType: string, side: string)
    requires price != 0.0
    ensures CalculateQuantity(cfg, symbol, price, marketType, None, side)
         == CalculateQuantity(cfg, symbol, price, marketType, Some(cfg.tradeAmountUsdt), side)
  {
    assert BaseQuantity(cfg, price, marketType, None, side) == BaseQuantity(cfg, price, marketType, Some(cfg.tradeAmountUsdt), side);
  }

  /**
   * Only a spot SELL is shrunk, by the factor (1 - 1.1 * rate); a BUY, and any
   * side on another market type, uses trade_amount / price unchanged.
   */
  lemma SellShrinkOnlyOnSpot(cfg: OrderConfig, price: real, marketType: string, amount: real, side: string)
    requires price != 0.0
    ensures Upper(side) != "SELL" || marketType != "spot" ==>
              BaseQuantity(cfg, price, marketType, Some(amount), side) == amount / price
    ensures Upper(side) == "SELL" && marketType == "spot" ==>
              BaseQuantity(cfg, price, marketType, Some(amount), side)
                == BaseQuantity(cfg, price, marketType, Some(amount), "BUY") * (1.0 - 1.1 * cfg.spotCommissionRate)
  {
    assert Upper("BUY") == "BUY";
  }

  /**
   * At quantity precision 0 and a positive price, the bump-up yields
   * floor(1.01 * MIN_NOTIONAL / price) + 1 units, whose notional exceeds
   * MIN_NOTIONAL.
   */
  lemma BumpAtPrecisionZero(cfg: OrderConfig, price: real)
    requires price > 0.0 && cfg.minNotional >= 0.0
    ensures BumpedQuantity(cfg, price, 0) == ((cfg.minNotional / price) * 1.01).Floor as real + 1.0
    ensures BumpedQuantity(cfg, price, 0) * price > cfg.minNotional
  {
    var x := (cfg.minNotional / price) * 1.01;
    var q := BumpedQuantity(cfg, price, 0);
    assert q > x;
    assert x * price == cfg.minNotional * 1.01;
    MulStrict(x, q, price);
  }

  /**
   * For a symbol traded in whole units (precision 0) at a positive price and a
   * non-negative MIN_NOTIONAL, the sized order always reaches the minimum
   * notional.
   */
  lemma WholeUnitOrdersMeetMinNotional(cfg: OrderConfig, symbol: string, price: real, marketType: string,
                                       tradeAmount: Option<real>, side: string)
    requires price > 0.0 && cfg.minNotional >= 0.0
    requires QuantityPrecision(cfg, symbol) == 0
    ensures CalculateQuantity(cfg, symbol, price, marketType, tradeAmount, side).notional >= cfg.minNotional
  {
    BumpAtPrecisionZero(cfg, price);
  }

  /**
   * As written, the bump-up at a positive precision rounds to the nearest
   * unit and can undo itself: with MIN_NOTIONAL 5, a price of 60000 and the
   * default precision 3, a one-dollar budget gives quantity 0 and notional 0.
   */
  lemma BumpCanRoundToZero()
    ensures var cfg := OrderConfig(1.0, 5.0, 0.001, 0.0004, map[], map[]);
            var r := CalculateQuantity(cfg, "BTCUSDT", 60000.0, "spot", None, "BUY");
            r.quantity == 0.0 && r.notional == 0.0 && r.notional < cfg.minNotional
  {
    var cfg := OrderConfig(1.0, 5.0, 0.001, 0.0004, map[], map[]);
    assert QuantityPrecision(cfg, "BTCUSDT") == 3;
    assert Pow10(3) == 1000;
    var base := BaseQuantity(cfg, 60000.0, "spot", None, "BUY");
    assert Upper("BUY") == "BUY";
    assert base == 1.0 / 60000.0;
    assert base * 1000.0 == 1.0 / 60.0;
    assert RoundToInt(base * 1000.0) == 0;
    var bump := (cfg.minNotional / 60000.0) * 1.01;
    assert bump * 1000.0 == 5.05 / 60.0;
    assert RoundToInt(bump * 1000.0) == 0;
  }

  /** units is the ceiling of q · p in whole units: units / p lies in [q, q + 1/p). */
  lemma CeilUnitsBounds(q: real, p: real, units: int)
    requires p > 0.0 && units as real - 1.0 < q * p <= units as real
    ensures q <= units as real / p < q + 1.0 / p
  {
    assert (q + 1.0 / p) * p == q * p + 1.0;
    DivOrder(units as real, p, q);
    DivOrder(units as real, p, q + 1.0 / p);
  }

  /** No whole number of units m with m / p >= q lies below the ceiling units. */
  lemma CeilUnitsLeast(q: real, p: real, units: int, m: int)
    requires p > 0.0 && units as real - 1.0 < q * p <= units as real
    requires m as real / p >= q
    ensures units as real / p <= m as real / p
  {
    DivOrder(m as real, p, q);
    assert m >= units;
    DivMonotone(units as real, m as real, p);
  }

  /** Rounds q up to `precision` decimals: the smallest multiple of 10^-precision not below q. */
  function CeilToPrecision(q: real, precision: nat): (r: real)
    ensures r >= q
    ensures exists m: int :: r == Decimal(m, precision)
    ensures r < q + Decimal(1, precision)
    ensures forall m: int :: Decimal(m, precision) >= q ==> r <= Decimal(m, precision)
  {
    var p := Pow10(precision) as real;
    var units := -((-(q * p)).Floor);
    CeilUnitsBounds(q, p, units);
    assert forall m: int :: Decimal(m, precision) >= q ==> Decimal(units, precision) <= Decimal(m, precision) by {
      forall m: int | Decimal(m, precision) >= q
        ensures Decimal(units, precision) <= Decimal(m, precision)
      {
        CeilUnitsLeast(q, p, units, m);
      }
    }
    Decimal(units, precision)
  }

  /**
   * The bump-up as evidently intended: the buffered quantity is rounded UP to
   * the symbol's precision, so the adjusted order clears the minimum.
   */
  function CalculateQuantityCorrected(cfg: OrderConfig, symbol: string, price: real, marketType: string,
                                      tradeAmount: Option<real>, side: string): (r: Sizing)
    requires price != 0.0
    ensures r.notional == r.quantity * price
    ensures r.estimatedFee == Fee(r.notional, CommissionRate(cfg, marketType))
    ensures price > 0.0 && cfg.minNotional >= 0.0 ==> r.notional >= cfg.minNotional
  {
    var precision := QuantityPrecision(cfg, symbol);
    var quantity := RoundQuantity(BaseQuantity(cfg, price, marketType, tradeAmount, side), precision);
    var bumped := BumpedQuantityCorrected(cfg, price, precision);
    SizeWithMinimum(quantity, bumped, price, CommissionRate(cfg, marketType), cfg.minNotional)
  }

  /** The bump-up rounded up instead of to the nearest unit. */
  function BumpedQuantityCorrected(cfg: OrderConfig, price: real, precision: nat): (q: real)
    requires price != 0.0
    ensures price > 0.0 && cfg.minNotional >= 0.0 ==> Notional(q, price) >= cfg.minNotional
  {
    var target := (cfg.minNotional / price) * 1.01;
    var bumped := if precision == 0 then (Trunc(target) + 1) as real else CeilToPrecision(target, precision);
    BumpMeetsMinimum(cfg, price, target, bumped);
    bumped
  }

  lemma BumpMeetsMinimum(cfg: OrderConfig, price: real, target: real, bumped: real)
    requires price != 0.0 && target == (cfg.minNotional / price) * 1.01 && bumped >= target
    ensures price > 0.0 && cfg.minNotional >= 0.0 ==> bumped * price >= cfg.minNotional
  {
    if price > 0.0 && cfg.minNotional >= 0.0 {
      assert target * price == cfg.minNotional * 1.01;
      MulMonotone(target, bumped, price);
    }
  }

  // ---------------------------------------------------------------------------
  // calculate_pnl

  /**
   * `calculate_pnl(entry, exit, quantity, side, market_type)`: the commission
   * is charged on both the entry and the exit notional; a "BUY" side (in any
   * letter case) profits from a rise and every other side from a fall; the
   * percentage is relative to the entry notional plus the entry fee.
   */
  function CalculatePnl(cfg: OrderConfig, entryPrice: real, exitPrice: real, quantity: real, side: string,
                        marketType: string): (r: Pnl)
    requires quantity * entryPrice + quantity * entryPrice * CommissionRate(cfg, marketType) != 0.0
    ensures r.totalFees == CommissionRate(cfg, marketType) * quantity * (entryPrice + exitPrice)
    ensures Upper(side) == "BUY" ==> r.pnlUsdt == quantity * (exitPrice - entryPrice) - r.totalFees
    ensures Upper(side) != "BUY" ==> r.pnlUsdt == quantity * (entryPrice - exitPrice) - r.totalFees
    ensures r.pnlPercent * (quantity * entryPrice + quantity * entryPrice * CommissionRate(cfg, marketType))
            == 100.0 * r.pnlUsdt
  {
    var rate := CommissionRate(cfg, marketType);
    var entryCost := quantity * entryPrice;
    var exitValue := quantity * exitPrice;
    var fees := Fees(entryCost, exitValue, rate);
    PnlAlgebra(quantity, entryPrice, exitPrice, rate);
    var pnl := if Upper(side) == "BUY" then (exitValue - entryCost) - fees else (entryCost - exitValue) - fees;
    Pnl(pnl, Percent(pnl, quantity * entryPrice + quantity * entryPrice * CommissionRate(cfg, marketType)), fees)
  }

  /** The regrouping of products CalculatePnl's contract relies on. */
  lemma PnlAlgebra(quantity: real, entryPrice: real, exitPrice: real, rate: real)
    ensures rate * (quantity * entryPrice + quantity * exitPrice) == rate * quantity * (entryPrice + exitPrice)
    ensures quantity * exitPrice - quantity * entryPrice == quantity * (exitPrice - entryPrice)
    ensures quantity * entryPrice - quantity * exitPrice == quantity * (entryPrice - exitPrice)
  {
  }

  /** The commission on the entry notional plus the commission on the exit notional. */
  function Fees(entryCost: real, exitValue: real, rate: real): (r: real)
    ensures r == rate * (entryCost + exitValue)
  {
    entryCost * rate + exitValue * rate
  }

  /** `(pnl / total_invested) * 100`. */
  function Percent(pnl: real, invested: real): (r: real)
    requires invested != 0.0
    ensures r * invested == 100.0 * pnl
  {
    (pnl / invested) * 100.0
  }

  /** Closing at the entry price loses exactly the two commissions. */
  lemma FlatExitLosesFees(cfg: OrderConfig, price: real, quantity: real, side: string, marketType: string)
    requires quantity >= 0.0 && price >= 0.0 && CommissionRate(cfg, marketType) >= 0.0
    requires quantity * price + quantity * price * CommissionRate(cfg, marketType) != 0.0
    ensures var r := CalculatePnl(cfg, price, price, quantity, side, marketType);
            r.pnlUsdt == -r.totalFees && r.pnlUsdt <= 0.0 && r.pnlPercent <= 0.0
  {
    var rate := CommissionRate(cfg, marketType);
    var r := CalculatePnl(cfg, price, price, quantity, side, marketType);
    MulNonNegative(rate, quantity);
    MulNonNegative(rate * quantity, price + price);
    var invested := quantity * price * (1.0 + rate);
    MulNonNegative(quantity, price);
    MulNonNegative(quantity * price, 1.0 + rate);
    assert invested > 0.0;
    if r.pnlPercent > 0.0 {
      MulStrict(0.0, r.pnlPercent, invested);
      assert false;
    }
  }

  /**
   * The long and the short result of the same prices are mirror images up to
   * the fees: their sum is minus twice the total commission.
   */
  lemma LongShortMirror(cfg: OrderConfig, entryPrice: real, exitPrice: real, quantity: real, side: string,
                        marketType: string)
    requires quantity * entryPrice + quantity * entryPrice * CommissionRate(cfg, marketType) != 0.0
    requires Upper(side) != "BUY"
    ensures CalculatePnl(cfg, entryPrice, exitPrice, quantity, "BUY", marketType).pnlUsdt
          + CalculatePnl(cfg, entryPrice, exitPrice, quantity, side, marketType).pnlUsdt
         == -2.0 * CalculatePnl(cfg, entryPrice, exitPrice, quantity, side, marketType).totalFees
  {
    assert Upper("BUY") == "BUY";
  }

  /**
   * A long of one unit from 100 to 101 at a 0.1% commission nets
   * 1 - (0.1 + 0.101) = 0.799.
   */
  lemma LongScenario()
    ensures var cfg := OrderConfig(10.0, 5.0, 0.001, 0.0004, map[], map[]);
            CalculatePnl(cfg, 100.0, 101.0, 1.0, "buy", "spot").pnlUsdt == 0.799
  {
    assert Upper("buy") == "BUY";
  }

  // ---------------------------------------------------------------------------
  // format_price and validate_order

  /** `format_price`: the price rounded to PRICE_PRECISION.get(symbol, 2) decimals. */
  function FormatPrice(cfg: OrderConfig, symbol: string, price: real): (r: real)
    ensures Abs(r - price) <= 0.5 / Pow10(if symbol in cfg.pricePrecision then cfg.pricePrecision[symbol] else 2) as real
    ensures RoundedTo(r, price, if symbol in cfg.pricePrecision then cfg.pricePrecision[symbol] else 2)
  {
    RoundHalfEvenError(price, if symbol in cfg.pricePrecision then cfg.pricePrecision[symbol] else 2);
    RoundHalfEvenRounds(price, if symbol in cfg.pricePrecision then cfg.pricePrecision[symbol] else 2);
    RoundHalfEven(price, if symbol in cfg.pricePrecision then cfg.pricePrecision[symbol] else 2)
  }

  /**
   * `validate_order`: (True, None) exactly for an order whose notional reaches
   * MIN_NOTIONAL with a positive quantity and price; otherwise the first
   * failing check in the order notional, quantity, price.
   */
  function ValidateOrder(cfg: OrderConfig, quantity: real, price: real): (r: (bool, Option<OrderError>))
    ensures r.0 <==> quantity * price >= cfg.minNotional && quantity > 0.0 && price > 0.0
    ensures r.0 <==> r.1 == None
    ensures r.1 == Some(NotionalBelowMinimum(quantity * price)) <==> quantity * price < cfg.minNotional
    ensures r.1 == Some(InvalidQuantity) <==> quantity * price >= cfg.minNotional && quantity <= 0.0
    ensures r.1 == Some(InvalidPrice) <==> quantity * price >= cfg.minNotional && quantity > 0.0 && price <= 0.0
  {
    var notional := quantity * price;
    if notional < cfg.minNotional then (false, Some(NotionalBelowMinimum(notional)))
    else if quantity <= 0.0 then (false, Some(InvalidQuantity))
    else if price <= 0.0 then (false, Some(InvalidPrice))
    else (true, None)
  }

  /**
   * Because the notional check comes first, a positive MIN_NOTIONAL makes the
   * "Invalid price" outcome unreachable: a positive quantity at a non-positive
   * price has a non-positive notional and fails the minimum first.
   */
  lemma PositiveMinimumHidesInvalidPrice(cfg: OrderConfig, quantity: real, price: real)
    requires cfg.minNotional > 0.0
    ensures ValidateOrder(cfg, quantity, price).1 != Some(InvalidPrice)
  {
    if quantity > 0.0 && price <= 0.0 {
      MulMonotone(price, 0.0, quantity);
    }
  }

  /** A sized order at whole-unit precision passes validation when its quantity is positive. */
  lemma SizedOrderValidates(cfg: OrderConfig, symbol: string, price: real, marketType: string,
                            tradeAmount: Option<real>, side: string)
    requires price > 0.0 && cfg.minNotional >= 0.0
    requires QuantityPrecision(cfg, symbol) == 0
    requires CalculateQuantity(cfg, symbol, price, marketType, tradeAmount, side).quantity > 0.0
    ensures ValidateOrder(cfg, CalculateQuantity(cfg, symbol, price, marketType, tradeAmount, side).quantity, price).0
  {
    WholeUnitOrdersMeetMinNotional(cfg, symbol, price, marketType, tradeAmount, side);
  }
}
