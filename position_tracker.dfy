/**
 * The live position tracker (trading/position_tracker.py:178-249): positions
 * are opened by appending a `Position` to the tracker, and each position is
 * then watched by a polling loop that, on every sample of the cached last
 * traded price, computes the signed PnL percentage and the time held, picks
 * an exit reason in the order TARGET, STOPLOSS, TIME EXIT, and on the first
 * exit closes the position and logs exactly one trade record.
 *
 * The Redis cache, the monitoring thread, the sleep between polls and the
 * Mongo insert are not part of the model: the loop consumes a sequence of
 * `Tick`s (the price read from the cache, if any, and the clock at that
 * moment), and the trade records the tracker logs are kept in `ledger`.
 */
module PositionTracker {
  import opened Common

  /** TARGET_PERCENT, STOPLOSS_PERCENT and MAX_HOLD_TIME_SEC. */
  datatype TrackerConfig = TrackerConfig(targetPercent: real, stoplossPercent: real, maxHoldTimeSec: int)

  /** The defaults of core/config.py: 0.4 %, 0.2 % and 60 seconds. */
  const DefaultConfig := TrackerConfig(0.4, 0.2, 60)

  datatype ExitReason = Target | Stoploss | TimeExit

  /** One poll of the price cache: the last traded price if one is cached, and the clock in microseconds. */
  datatype Tick = Tick(ltp: Option<real>, now: int)

  /** The immutable part of a position: what it was opened with. */
  datatype PositionInfo = PositionInfo(symbol: string, side: string, entryPrice: real, marketType: string,
                                       strategy: string, openTime: int)

  /** The `trade_data` document written when a position closes. */
  datatype TradeRecord = TradeRecord(symbol: string, marketType: string, side: string, entryPrice: real,
                                     exitPrice: real, entryTime: int, exitTime: int, pnlPercent: real,
                                     reason: ExitReason, strategy: string)

  class Position {
    const symbol: string
    const side: string
    const entryPrice: real
    const marketType: string
    const strategy: string
    /** `datetime.now()` at opening, in microseconds. */
    const openTime: int
    var closed: bool

    constructor (symbol: string, side: string, entryPrice: real, marketType: string, strategy: string, now: int)
      ensures Info() == PositionInfo(symbol, side, entryPrice, marketType, strategy, now)
      ensures !closed
    {
      this.symbol := symbol;
      this.side := side;
      this.entryPrice := entryPrice;
      this.marketType := marketType;
      this.strategy := strategy;
      this.openTime := now;
      this.closed := false;
    }

    function Info(): PositionInfo
    {
      PositionInfo(symbol, side, entryPrice, marketType, strategy, openTime)
    }
  }

  /** The sides whose PnL sign is reversed: "sell" in any letter case, and "short" on futures. */
  predicate IsShortSide(side: string, marketType: string)
  {
    Lower(side) == "sell" || (marketType == "futures" && side == "short")
  }

  /** The PnL percentage of the move from the entry to the live price, negated for a short side. */
  function SignedPnl(entryPrice: real, livePrice: real, side: string, marketType: string): (r: real)
    requires entryPrice != 0.0
    ensures !IsShortSide(side, marketType) ==> r * entryPrice == (livePrice - entryPrice) * 100.0
    ensures IsShortSide(side, marketType) ==> r * entryPrice == (entryPrice - livePrice) * 100.0
  {
    var pnl := ((livePrice - entryPrice) / entryPrice) * 100.0;
    if IsShortSide(side, marketType) then -pnl else pnl
  }

  /**
   * For a positive entry price the PnL is positive exactly when the price
   * moved in the position's favour: up for a long, down for a short.
   */
  lemma SignedPnlDirection(entryPrice: real, livePrice: real, side: string, marketType: string)
    requires entryPrice > 0.0
    ensures !IsShortSide(side, marketType) ==> (SignedPnl(entryPrice, livePrice, side, marketType) > 0.0 <==> livePrice > entryPrice)
    ensures IsShortSide(side, marketType) ==> (SignedPnl(entryPrice, livePrice, side, marketType) > 0.0 <==> livePrice < entryPrice)
  {
    var r := SignedPnl(entryPrice, livePrice, side, marketType);
    if r > 0.0 {
      MulStrict(0.0, r, entryPrice);
    } else {
      MulMonotone(r, 0.0, entryPrice);
    }
  }

  /** "SELL", "Sell" and "sell" all count as a short on any market; "SHORT" counts on none. */
  lemma ShortSideSpellings(marketType: string)
    ensures IsShortSide("SELL", marketType) && IsShortSide("Sell", marketType)
    ensures IsShortSide("short", "futures") && !IsShortSide("short", "spot")
    ensures !IsShortSide("SHORT", "futures")
  {
    assert Lower("SELL") == "sell";
    assert Lower("Sell") == "sell";
    assert Lower("short") == "short";
    assert Lower("SHORT") == "short";
  }

  /**
   * `(now - open_time).seconds`: the seconds component of the timedelta,
   * which counts whole seconds within the current day and so wraps to 0
   * every 86400 seconds (a negative difference is normalised the same way).
   */
  function Elapsed(openTime: int, now: int): (r: int)
    ensures 0 <= r < 86400
  {
    ((now - openTime) % 86_400_000_000) / 1_000_000
  }

  /** Within the first day the elapsed time is the whole number of seconds held. */
  lemma ElapsedWithinDay(openTime: int, now: int)
    requires 0 <= now - openTime < 86_400_000_000
    ensures Elapsed(openTime, now) == (now - openTime) / 1_000_000
  {
  }

  /** One whole day later the elapsed time is back where it was: a position held a day is not timed out by it. */
  lemma ElapsedWrapsDaily(openTime: int, now: int)
    ensures Elapsed(openTime, now + 86_400_000_000) == Elapsed(openTime, now)
  {
    var d := now - openTime;
    assert (d + 86_400_000_000) % 86_400_000_000 == d % 86_400_000_000;
  }

  /** The exit reason for a PnL and a holding time: TARGET, then STOPLOSS, then TIME EXIT, else none. */
  function ExitReasonOf(pnl: real, elapsed: int, cfg: TrackerConfig): (r: Option<ExitReason>)
    ensures r == Some(Target) <==> pnl >= cfg.targetPercent
    ensures r == Some(Stoploss) <==> pnl < cfg.targetPercent && pnl <= -cfg.stoplossPercent
    ensures r == Some(TimeExit) <==> pnl < cfg.targetPercent && pnl > -cfg.stoplossPercent && elapsed >= cfg.maxHoldTimeSec
    ensures r == None <==> pnl < cfg.targetPercent && pnl > -cfg.stoplossPercent && elapsed < cfg.maxHoldTimeSec
  {
    if pnl >= cfg.targetPercent then Some(Target)
    else if pnl <= -cfg.stoplossPercent then Some(Stoploss)
    else if elapsed >= cfg.maxHoldTimeSec then Some(TimeExit)
    else None
  }

  /**
   * What one pass of the polling loop decides: nothing when no price is
   * cached or no exit condition holds, otherwise the trade record it logs,
   * priced at the live price, stamped with the tick's clock and carrying the
   * signed PnL and the reason.
   */
  function TickOutcome(info: PositionInfo, tick: Tick, cfg: TrackerConfig): (r: Option<TradeRecord>)
    requires info.entryPrice != 0.0
    ensures tick.ltp.None? ==> r.None?
    ensures tick.ltp.Some? ==>
              var pnl := SignedPnl(info.entryPrice, tick.ltp.value, info.side, info.marketType);
              var reason := ExitReasonOf(pnl, Elapsed(info.openTime, tick.now), cfg);
              (r.None? <==> reason.None?) &&
              (r.Some? ==> r.value == TradeRecord(info.symbol, info.marketType, info.side, info.entryPrice,
                                                   tick.ltp.value, info.openTime, tick.now, pnl,
                                                   reason.value, info.strategy))
  {
    match tick.ltp
    case None => None
    case Some(price) =>
      var pnl := SignedPnl(info.entryPrice, price, info.side, info.marketType);
      match ExitReasonOf(pnl, Elapsed(info.openTime, tick.now), cfg)
      case None => None
      case Some(reason) =>
        Some(TradeRecord(info.symbol, info.marketType, info.side, info.entryPrice, price, info.openTime,
                         tick.now, pnl, reason, info.strategy))
  }

  /**
   * The first tick at which the loop closes the position, with the record it
   * logs; None when no tick of the sequence triggers an exit.
   */
  function FirstExit(info: PositionInfo, ticks: seq<Tick>, cfg: TrackerConfig): (r: Option<(nat, TradeRecord)>)
    requires info.entryPrice != 0.0
    ensures r.None? <==> forall j :: 0 <= j < |ticks| ==> TickOutcome(info, ticks[j], cfg).None?
    ensures r.Some? ==> r.value.0 < |ticks| && TickOutcome(info, ticks[r.value.0], cfg) == Some(r.value.1)
    ensures r.Some? ==> forall j :: 0 <= j < r.value.0 ==> TickOutcome(info, ticks[j], cfg).None?
  {
    if |ticks| == 0 then None
    else match TickOutcome(info, ticks[0], cfg)
      case Some(record) => Some((0, record))
      case None =>
        match FirstExit(info, ticks[1..], cfg)
        case None => None
        case Some(found) => Some((found.0 + 1, found.1))
  }

  /** A tick with no cached price only delays the exit by one poll. */
  lemma {:induction false} MissingPriceDelaysExit(info: PositionInfo, now: int, ticks: seq<Tick>, cfg: TrackerConfig)
    requires info.entryPrice != 0.0
    ensures var later := FirstExit(info, ticks, cfg);
            FirstExit(info, [Tick(None, now)] + ticks, cfg)
              == if later.None? then None else Some((later.value.0 + 1, later.value.1))
  {
    assert ([Tick(None, now)] + ticks)[1..] == ticks;
  }

  /**
   * Once a price is cached at a tick whose elapsed time reaches the maximum
   * hold, the position has closed by that tick at the latest.
   */
  lemma TimeExitBound(info: PositionInfo, ticks: seq<Tick>, cfg: TrackerConfig, k: nat)
    requires info.entryPrice != 0.0
    requires k < |ticks| && ticks[k].ltp.Some?
    requires Elapsed(info.openTime, ticks[k].now) >= cfg.maxHoldTimeSec
    ensures FirstExit(info, ticks, cfg).Some? && FirstExit(info, ticks, cfg).value.0 <= k
  {
    var pnl := SignedPnl(info.entryPrice, ticks[k].ltp.value, info.side, info.marketType);
    assert ExitReasonOf(pnl, Elapsed(info.openTime, ticks[k].now), cfg).Some?;
    assert TickOutcome(info, ticks[k], cfg).Some?;
  }

  /** The record of a close is priced at the live price of its tick and its reason matches the PnL. */
  lemma ExitRecordConsistent(info: PositionInfo, ticks: seq<Tick>, cfg: TrackerConfig)
    requires info.entryPrice != 0.0
    requires FirstExit(info, ticks, cfg).Some?
    ensures var (k, record) := FirstExit(info, ticks, cfg).value;
            ticks[k].ltp == Some(record.exitPrice) && record.exitTime == ticks[k].now &&
            record.pnlPercent == SignedPnl(info.entryPrice, record.exitPrice, info.side, info.marketType) &&
            (record.reason == Target <==> record.pnlPercent >= cfg.targetPercent) &&
            (record.reason == Stoploss ==> record.pnlPercent <= -cfg.stoplossPercent) &&
            (record.reason == TimeExit ==> Elapsed(info.openTime, record.exitTime) >= cfg.maxHoldTimeSec)
  {
    var (k, record) := FirstExit(info, ticks, cfg).value;
    assert TickOutcome(info, ticks[k], cfg) == Some(record);
  }

  class PositionTracker {
    const cfg: TrackerConfig
    /** Every position ever opened, in opening order. */
    var positions: seq<Position>
    /** The trade records logged on closing, in closing order. */
    var ledger: seq<TradeRecord>

    constructor (cfg: TrackerConfig)
      ensures this.cfg == cfg && positions == [] && ledger == []
    {
      this.cfg := cfg;
      positions := [];
      ledger := [];
    }

    /**
     * `open_position`: appends one new open position and leaves the earlier
     * ones as they were; there is no check for an existing position on the
     * same symbol.
     */
    method OpenPosition(symbol: string, side: string, price: real, marketType: string, strategy: string, now: int)
      returns (pos: Position)
      modifies this
      ensures fresh(pos) && !pos.closed
      ensures pos.Info() == PositionInfo(symbol, side, price, marketType, strategy, now)
      ensures positions == old(positions) + [pos]
      ensures ledger == old(ledger)
    {
      pos := new Position(symbol, side, price, marketType, strategy, now);
      positions := positions + [pos];
    }

    /**
     * `monitor_position` over the polls in `ticks`: the loop stops at the first
     * tick with an exit, closes the position and logs its record; a position
     * that is already closed is not polled at all. `polled` is the number of
     * ticks consumed.
     */
    method MonitorPosition(pos: Position, ticks: seq<Tick>) returns (polled: nat)
      requires pos.entryPrice != 0.0
      modifies this, pos
      ensures positions == old(positions)
      ensures old(pos.closed) ==> pos.closed && ledger == old(ledger) && polled == 0
      ensures !old(pos.closed) ==>
                match FirstExit(pos.Info(), ticks, cfg)
                case None => !pos.closed && ledger == old(ledger) && polled == |ticks|
                case Some((k, record)) => pos.closed && ledger == old(ledger) + [record] && polled == k + 1
    {
      polled := 0;
      while !pos.closed && polled < |ticks|
        invariant polled <= |ticks|
        invariant positions == old(positions)
        invariant old(pos.closed) ==> pos.closed && ledger == old(ledger) && polled == 0
        invariant !old(pos.closed) && !pos.closed ==>
                    ledger == old(ledger) &&
                    forall j :: 0 <= j < polled ==> TickOutcome(pos.Info(), ticks[j], cfg).None?
        invariant !old(pos.closed) && pos.closed ==>
                    0 < polled && TickOutcome(pos.Info(), ticks[polled - 1], cfg).Some? &&
                    ledger == old(ledger) + [TickOutcome(pos.Info(), ticks[polled - 1], cfg).value] &&
                    forall j :: 0 <= j < polled - 1 ==> TickOutcome(pos.Info(), ticks[j], cfg).None?
      {
        var outcome := TickOutcome(pos.Info(), ticks[polled], cfg);
        if outcome.Some? {
          pos.closed := true;
          ledger := ledger + [outcome.value];
        }
        polled := polled + 1;
      }
    }
  }
}
