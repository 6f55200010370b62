/**
 * The shared control logic of trading/base_manager.py: the `retry_on_error`
 * decorator, the order log of `BaseTradeManager` and the order-book
 * imbalance. The exchange client is outside the model: a wrapped call is
 * given as the outcome of each attempt, the order book as its two volume
 * columns.
 */
module BaseManager {
  import opened Common

  /** What one call of the wrapped function does. */
  datatype Attempt<T> = Success(value: T) | ApiError | OtherError

  /** How the decorated call ends: a returned value, or an exception leaving it. */
  datatype CallResult<T> = Returned(result: Option<T>) | RaisedApiError | RaisedOtherError

  /**
   * `retry_on_error(max_retries)` applied to a function whose attempt k
   * behaves as `attempt(k)`. It returns the first success; an API error is
   * retried unless it comes from the last attempt, where it is re-raised;
   * any other exception leaves at once; with no attempts at all the wrapper
   * returns None. `calls` is the number of attempts made. The delay between
   * attempts is not modelled.
   */
  method RetryOnError<T>(maxRetries: int, attempt: nat -> Attempt<T>) returns (r: CallResult<T>, calls: nat)
    ensures maxRetries <= 0 ==> r == Returned(None) && calls == 0
    ensures maxRetries > 0 ==> 1 <= calls <= maxRetries
    ensures forall k :: 0 <= k < calls - 1 ==> attempt(k).ApiError?
    ensures maxRetries > 0 ==>
              match attempt(calls - 1)
              case Success(v) => r == Returned(Some(v))
              case OtherError => r == RaisedOtherError
              case ApiError => calls == maxRetries && r == RaisedApiError
  {
    calls := 0;
    var k := 0;
    while k < maxRetries
      invariant calls == k && (if maxRetries > 0 then k < maxRetries else k == 0)
      invariant forall j :: 0 <= j < k ==> attempt(j).ApiError?
    {
      calls := calls + 1;
      match attempt(k) {
        case Success(v) =>
          return Returned(Some(v)), calls;
        case OtherError =>
          return RaisedOtherError, calls;
        case ApiError =>
          if k == maxRetries - 1 {
            return RaisedApiError, calls;
          }
      }
      k := k + 1;
    }
    r := Returned(None);
  }

  /**
   * An order as the exchange returns it: its fields rendered as text. An
   * absent order stands for None; a present one is truthy when it has a field.
   */
  type Order = map<string, string>

  /** `order.get(key)`. */
  function Get(order: Order, key: string): (r: Option<string>)
    ensures r.Some? <==> key in order
    ensures r.Some? ==> r.value == order[key]
  {
    if key in order then Some(order[key]) else None
  }

  /** An entry of `order_history`. */
  datatype OrderEntry = OrderEntry(
    orderId: Option<string>,
    symbol: Option<string>,
    side: Option<string>,
    orderType: Option<string>,
    quantity: Option<string>,
    price: Option<string>,
    status: Option<string>,
    timestamp: Option<string>)

  /** The entry `log_order` records; the quantity is the original quantity and the timestamp the order time. */
  function EntryOf(order: Order): OrderEntry
  {
    OrderEntry(Get(order, "orderId"), Get(order, "symbol"), Get(order, "side"), Get(order, "type"),
               Get(order, "origQty"), Get(order, "price"), Get(order, "status"), Get(order, "time"))
  }

  /** Python truthiness of the order argument: present and non-empty. */
  predicate Truthy(order: Option<Order>)
  {
    order.Some? && |order.value| > 0
  }

  /**
   * An order that carries every key the log reads is recorded field for
   * field; two orders that agree on those keys give the same entry.
   */
  lemma EntryOfFields(order: Order, other: Order)
    requires forall key :: key in {"orderId", "symbol", "side", "type", "origQty", "price", "status", "time"} ==> key in order
    ensures var e := EntryOf(order);
            e.orderId == Some(order["orderId"]) && e.symbol == Some(order["symbol"]) &&
            e.side == Some(order["side"]) && e.orderType == Some(order["type"]) &&
            e.quantity == Some(order["origQty"]) && e.price == Some(order["price"]) &&
            e.status == Some(order["status"]) && e.timestamp == Some(order["time"])
    ensures (forall key :: key in {"orderId", "symbol", "side", "type", "origQty", "price", "status", "time"} ==>
               Get(order, key) == Get(other, key)) ==> EntryOf(order) == EntryOf(other)
  {
    var keys := {"orderId", "symbol", "side", "type", "origQty", "price", "status", "time"};
    if forall key :: key in keys ==> Get(order, key) == Get(other, key) {
      assert Get(order, "orderId") == Get(other, "orderId");
      assert Get(order, "symbol") == Get(other, "symbol");
      assert Get(order, "side") == Get(other, "side");
      assert Get(order, "type") == Get(other, "type");
      assert Get(order, "origQty") == Get(other, "origQty");
      assert Get(order, "price") == Get(other, "price");
      assert Get(order, "status") == Get(other, "status");
      assert Get(order, "time") == Get(other, "time");
    }
  }

  /** `BaseTradeManager`: the symbol, the order log and the initialised flag. */
  class TradeManager {
    const symbol: string
    var orderHistory: seq<OrderEntry>
    var initialized: bool

    constructor (symbol: string)
      ensures this.symbol == symbol && orderHistory == [] && !initialized
    {
      this.symbol := symbol;
      orderHistory := [];
      initialized := false;
    }

    /** `log_order(order)`: one entry is appended exactly when the order is truthy. */
    method LogOrder(order: Option<Order>)
      modifies this
      ensures orderHistory == if Truthy(order) then old(orderHistory) + [EntryOf(order.value)] else old(orderHistory)
      ensures initialized == old(initialized)
    {
      if Truthy(order) {
        orderHistory := orderHistory + [EntryOf(order.value)];
      }
    }

    /** `cleanup()`: the manager is no longer initialised. */
    method Cleanup()
      modifies this
      ensures !initialized && orderHistory == old(orderHistory)
    {
      initialized := false;
    }
  }

  /**
   * `get_order_book_imbalance` on the bid and ask quantities of the book: 0 on
   * an empty book. With non-negative totals it lies in [-1, 1], its sign is
   * the side with more volume, and it is ±1 exactly when one side is empty.
   */
  function Imbalance(bids: seq<real>, asks: seq<real>): (r: real)
    ensures Sum(bids) + Sum(asks) == 0.0 ==> r == 0.0
    ensures Sum(bids) >= 0.0 && Sum(asks) >= 0.0 ==>
              -1.0 <= r <= 1.0 &&
              (r > 0.0 <==> Sum(bids) > Sum(asks)) && (r < 0.0 <==> Sum(bids) < Sum(asks)) &&
              (r == 1.0 <==> Sum(bids) > 0.0 && Sum(asks) == 0.0) &&
              (r == -1.0 <==> Sum(asks) > 0.0 && Sum(bids) == 0.0)
  {
    var total := Sum(bids) + Sum(asks);
    if total == 0.0 then 0.0
    else
      ShareRange(Sum(bids), Sum(asks));
      (Sum(bids) - Sum(asks)) / total
  }

  /**
   * With non-negative quantities the imbalance lies in [-1, 1]; it is
   * positive exactly when more is bid than asked, negative exactly when
   * less, 1 exactly when bids alone are present and -1 exactly when asks
   * alone are.
   */
  lemma ImbalanceRange(bids: seq<real>, asks: seq<real>)
    requires forall k :: 0 <= k < |bids| ==> bids[k] >= 0.0
    requires forall k :: 0 <= k < |asks| ==> asks[k] >= 0.0
    ensures -1.0 <= Imbalance(bids, asks) <= 1.0
    ensures Imbalance(bids, asks) > 0.0 <==> Sum(bids) > Sum(asks)
    ensures Imbalance(bids, asks) < 0.0 <==> Sum(bids) < Sum(asks)
    ensures Imbalance(bids, asks) == 1.0 <==> Sum(bids) > 0.0 && Sum(asks) == 0.0
    ensures Imbalance(bids, asks) == -1.0 <==> Sum(asks) > 0.0 && Sum(bids) == 0.0
  {
    SumNonNegative(bids);
    SumNonNegative(asks);
  }

  /** The share (b - a) / (b + a) of two non-negative totals. */
  lemma ShareRange(b: real, a: real)
    requires b + a != 0.0
    ensures b >= 0.0 && a >= 0.0 ==>
              -1.0 <= (b - a) / (b + a) <= 1.0 &&
              ((b - a) / (b + a) > 0.0 <==> b > a) && ((b - a) / (b + a) < 0.0 <==> b < a) &&
              ((b - a) / (b + a) == 1.0 <==> a == 0.0) && ((b - a) / (b + a) == -1.0 <==> b == 0.0)
  {
    if b >= 0.0 && a >= 0.0 {
      DivOrder(b - a, b + a, 1.0);
      DivOrder(b - a, b + a, -1.0);
      DivOrder(b - a, b + a, 0.0);
      var q := (b - a) / (b + a);
      assert q * (b + a) == b - a;
    }
  }
}
