/**
 * The one-minute candle builder of data_feed/candle_store.py. Ticks are
 * bucketed by the minute their timestamp falls in; the candle of the current
 * minute is updated in place, and when a tick of another minute arrives it is
 * closed into a deque of at most MAX_CANDLES = 500 candles (and written to
 * Redis, modelled here as a list of published candles) and a new candle is
 * started from the tick.
 */
module CandleStore {
  import opened Common

  const MaxCandles: nat := 500

  /** Microseconds in a minute. */
  const MinuteMicros: int := 60_000_000

  /** One live tick; `volume` is absent when the tick dict has no "volume" key. */
  datatype Tick = Tick(timestamp: int, price: real, volume: Option<real>)

  /** `tick_time.replace(second=0, microsecond=0)`: the start of the tick's minute. */
  function MinuteOf(t: int): (m: int)
    ensures m <= t < m + MinuteMicros
    ensures m % MinuteMicros == 0
  {
    t - t % MinuteMicros
  }

  /** Bucketing is idempotent, and two times share a bucket exactly when they lie in the same minute. */
  lemma MinuteOfBuckets(t: int, u: int)
    ensures MinuteOf(MinuteOf(t)) == MinuteOf(t)
    ensures MinuteOf(t) == MinuteOf(u) <==> t / MinuteMicros == u / MinuteMicros
  {
  }

  /** `live_tick.get('volume', 0)`. */
  function TickVolume(tick: Tick): real
  {
    if tick.volume.Some? then tick.volume.value else 0.0
  }

  /** The price range of a candle contains its open and its close. */
  predicate WellFormed(c: Candle)
  {
    c.low <= c.open <= c.high && c.low <= c.close <= c.high
  }

  /** The module's state: the deque of closed candles and the candle being built. */
  datatype StoreState = StoreState(candles: seq<Candle>, current: Option<Candle>)

  /** A new candle opened by a tick: all four prices at the tick price, stamped with the minute. */
  function OpenCandle(tick: Tick): (c: Candle)
    ensures WellFormed(c)
  {
    Candle(MinuteOf(tick.timestamp), tick.price, tick.price, tick.price, tick.price, TickVolume(tick))
  }

  /** Whether the tick starts a new candle: none is being built, or the tick is of another minute. */
  predicate StartsNewCandle(s: StoreState, tick: Tick)
  {
    s.current.None? || s.current.value.timestamp != MinuteOf(tick.timestamp)
  }

  /**
   * `update_candle(tick)` on the state. A tick of a new minute (or the first
   * tick) closes the current candle unchanged into the deque, which then ends
   * with it and drops its oldest candle when 500 were held, and opens a fresh
   * candle at the tick price with the tick's volume. A tick of the current
   * minute widens the range to the tick price, moves the close to it, adds
   * its volume, and leaves the timestamp, the open and the closed candles
   * unchanged. Every update keeps the store valid.
   */
  function UpdateStep(s: StoreState, tick: Tick): (r: StoreState)
    ensures Valid(s) ==> Valid(r)
    ensures StartsNewCandle(s, tick) ==>
              r.current == Some(Candle(MinuteOf(tick.timestamp), tick.price, tick.price, tick.price, tick.price,
                                       TickVolume(tick))) &&
              (s.current.None? ==> r.candles == s.candles) &&
              (s.current.Some? ==> r.candles == DequePush(s.candles, s.current.value, MaxCandles) &&
                                   |r.candles| == (if |s.candles| < MaxCandles then |s.candles| + 1 else MaxCandles) &&
                                   0 < |r.candles| <= |s.candles| + 1 && r.candles[|r.candles| - 1] == s.current.value &&
                                   r.candles == s.candles[|s.candles| + 1 - |r.candles|..] + [s.current.value] &&
                                   (|s.candles| < MaxCandles ==> r.candles == s.candles + [s.current.value]))
    ensures !StartsNewCandle(s, tick) ==>
              r.candles == s.candles && r.current.Some? &&
              var c := s.current.value;
              var d := r.current.value;
              d.timestamp == c.timestamp && d.open == c.open && d.close == tick.price &&
              d.high >= c.high && d.high >= tick.price && (d.high == c.high || d.high == tick.price) &&
              d.low <= c.low && d.low <= tick.price && (d.low == c.low || d.low == tick.price) &&
              d.volume == c.volume + TickVolume(tick)
  {
    if StartsNewCandle(s, tick) then
      if s.current.Some? then
        DequePushContents(s.candles, s.current.value, MaxCandles);
        PushKeepsStamped(s.candles, s.current.value);
        StoreState(DequePush(s.candles, s.current.value, MaxCandles), Some(OpenCandle(tick)))
      else
        StoreState(s.candles, Some(OpenCandle(tick)))
    else
      var c := s.current.value;
      StoreState(s.candles,
                 Some(c.(high := Max(c.high, tick.price), low := Min(c.low, tick.price), close := tick.price,
                         volume := c.volume + TickVolume(tick))))
  }

  /** The invariant the store keeps. */
  predicate Valid(s: StoreState)
  {
    |s.candles| <= MaxCandles &&
    (forall k :: 0 <= k < |s.candles| ==> WellFormed(s.candles[k]) && MinuteOf(s.candles[k].timestamp) == s.candles[k].timestamp) &&
    (s.current.Some? ==> WellFormed(s.current.value) && MinuteOf(s.current.value.timestamp) == s.current.value.timestamp)
  }

  /** Pushing a well-formed, minute-stamped candle keeps every candle of the deque so. */
  lemma PushKeepsStamped(candles: seq<Candle>, c: Candle)
    ensures (forall k :: 0 <= k < |candles| ==> WellFormed(candles[k]) && MinuteOf(candles[k].timestamp) == candles[k].timestamp) &&
            WellFormed(c) && MinuteOf(c.timestamp) == c.timestamp ==>
              var r := DequePush(candles, c, MaxCandles);
              forall k :: 0 <= k < |r| ==> WellFormed(r[k]) && MinuteOf(r[k].timestamp) == r[k].timestamp
  {
    var r := DequePush(candles, c, MaxCandles);
    DequePushContents(candles, c, MaxCandles);
    if (forall k :: 0 <= k < |candles| ==> WellFormed(candles[k]) && MinuteOf(candles[k].timestamp) == candles[k].timestamp) &&
       WellFormed(c) && MinuteOf(c.timestamp) == c.timestamp {
      forall k | 0 <= k < |r|
        ensures WellFormed(r[k]) && MinuteOf(r[k].timestamp) == r[k].timestamp
      {
        if k < |r| - 1 {
          assert r[k] == candles[|candles| + 1 - |r| + k];
        }
      }
    }
  }

  /** `get_last_candle()`: the newest closed candle, or None. */
  function LastCandle(s: StoreState): Option<Candle>
  {
    if |s.candles| > 0 then Some(s.candles[|s.candles| - 1]) else None
  }

  /**
   * After an update the last closed candle is the candle that was in progress
   * when the tick closed it, and otherwise is unchanged; the in-progress candle
   * is never returned while it is still being built.
   */
  lemma LastCandleIsClosed(s: StoreState, tick: Tick)
    ensures var t := UpdateStep(s, tick);
            (StartsNewCandle(s, tick) && s.current.Some? ==> LastCandle(t) == s.current) &&
            (!(StartsNewCandle(s, tick) && s.current.Some?) ==> LastCandle(t) == LastCandle(s))
  {
  }

  /** The module-level `candles` deque and `current_candle` global, with the Redis writes as a list. */
  class Store {
    var candles: seq<Candle>
    var current: Option<Candle>
    /** The candles written to Redis, in write order. */
    var published: seq<Candle>

    function State(): StoreState
      reads this
    {
      StoreState(candles, current)
    }

    constructor ()
      ensures candles == [] && current == None && published == []
      ensures Valid(State())
    {
      candles := [];
      current := None;
      published := [];
    }

    /** `update_candle(live_tick)`. */
    method UpdateCandle(tick: Tick)
      requires Valid(State())
      modifies this
      ensures State() == UpdateStep(old(State()), tick)
      ensures Valid(State())
      ensures published == if StartsNewCandle(old(State()), tick) && old(current).Some?
                           then old(published) + [old(current).value] else old(published)
    {
      ghost var before := State();
      ghost var after := UpdateStep(before, tick);
      assert Valid(after);
      var candleTime := MinuteOf(tick.timestamp);
      if current.None? || current.value.timestamp != candleTime {
        if current.Some? {
          candles := DequePush(candles, current.value, MaxCandles);
          published := published + [current.value];
        }
        current := Some(Candle(candleTime, tick.price, tick.price, tick.price, tick.price, TickVolume(tick)));
      } else {
        var c := current.value;
        c := c.(high := Max(c.high, tick.price));
        c := c.(low := Min(c.low, tick.price));
        c := c.(close := tick.price);
        c := c.(volume := c.volume + TickVolume(tick));
        current := Some(c);
      }
      assert State() == after;
      assert published == if StartsNewCandle(before, tick) && before.current.Some?
                           then old(published) + [before.current.value] else old(published);
    }

    /** `get_last_candle()`. */
    method GetLastCandle() returns (c: Option<Candle>)
      ensures c == LastCandle(State())
      ensures c.Some? <==> |candles| > 0
      ensures c.Some? ==> c.value == candles[|candles| - 1]
    {
      if |candles| > 0 {
        c := Some(candles[|candles| - 1]);
      } else {
        c := None;
      }
    }

    /** `get_all_candles()`: a copy of the closed candles, oldest first. */
    method GetAllCandles() returns (all: seq<Candle>)
      ensures all == candles
    {
      all := candles;
    }
  }
}
