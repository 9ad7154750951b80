/** `ScalperStrategy`: short scalps on a 5-against-5 tick micro-trend. */
module Scalper {
  import opened Common
  import opened Signals
  import opened MarketData
  import opened StateMachine
  import opened Web

  /** Most ticks kept. */
  const TickWindow: nat := 20
  /** Ticks needed before any signal. */
  const MinTicks: nat := 10
  /** Milliseconds that must pass between two entries. */
  const EntryGapMs: nat := 5000

  /** Trend in basis points of the mean of the last 5 ticks against the mean of the 5 before. */
  function MicroTrend(ticks: seq<real>): Quotient
    requires |ticks| >= MinTicks
  {
    var n := |ticks|;
    RelativeChange(RealSum(ticks[n - 5..]) / 5.0, RealSum(ticks[n - 10..n - 5]) / 5.0, 10000.0)
  }

  /** The entry score `(trend / 10).min(0.8)`; an infinite trend scores 0.8. */
  function EntryScore(trend: Quotient): (score: real)
    requires trend.Gt(1.0)
    ensures score <= 0.8
  {
    match trend
    case Finite(v) => Min(v / 10.0, 0.8)
    case _ => 0.8
  }

  function ScalpBuy(t: TradeEvent, trend: Quotient): Opportunity
    requires trend.Gt(1.0)
  {
    Opportunity("scalp_buy_" + NatToString(t.eventTime), Buy(t.symbol, Some(t.price), 0.0005),
      EntryScore(trend), 0.5, "Micro uptrend", t.eventTime)
  }

  function ScalpSell(t: TradeEvent): Opportunity {
    Opportunity("scalp_sell_" + NatToString(t.eventTime), Sell(t.symbol, Some(t.price), 0.0005),
      0.7, 0.3, "Scalp exit", t.eventTime)
  }

  /** The exit test: more than +5 or less than -3 basis points from the entry. */
  predicate ExitScalp(price: real, entry: real) {
    var pnl := RelativeChange(price, entry, 10000.0);
    pnl.Gt(5.0) || pnl.Lt(-3.0)
  }

  /** The strategy's position fields, as one value. */
  datatype Status = Status(lastSignalTime: nat, positionOpen: bool, entryPrice: real)

  /**
   * The signal part of `process_trade` once the tick is in the window: when
   * Trading with at least 10 ticks, enter on a micro-trend above 1 bps if flat
   * and more than 5 s (wrapping `u64` difference) since the last entry,
   * otherwise exit an open scalp on the exit test.
   */
  function Decide(s: Status, trading: bool, ticks: seq<real>, t: TradeEvent): (Status, seq<Opportunity>)
    requires s.lastSignalTime < U64Modulus && t.eventTime < U64Modulus
  {
    if !(trading && |ticks| >= MinTicks) then (s, [])
    else
      var trend := MicroTrend(ticks);
      if !s.positionOpen && trend.Gt(1.0) && WrappingSub(t.eventTime, s.lastSignalTime) > EntryGapMs then
        (Status(t.eventTime, true, t.price), [ScalpBuy(t, trend)])
      else if s.positionOpen && ExitScalp(t.price, s.entryPrice) then
        (s.(positionOpen := false), [ScalpSell(t)])
      else (s, [])
  }

  /**
   * At most one opportunity per call; the status changes only with one. An
   * entry needs a flat book, a trend above 1 bps and the time gap, and stamps
   * the time; an exit needs an open scalp and leaves the time alone.
   */
  lemma DecideProps(s: Status, trading: bool, ticks: seq<real>, t: TradeEvent)
    requires s.lastSignalTime < U64Modulus && t.eventTime < U64Modulus
    ensures var (r, opps) := Decide(s, trading, ticks, t);
      && |opps| <= 1
      && (opps == [] <==> r == s)
      && (opps != [] ==> trading && |ticks| >= MinTicks)
      && (opps != [] && opps[0].signal.Buy? ==>
            && !s.positionOpen && MicroTrend(ticks).Gt(1.0)
            && WrappingSub(t.eventTime, s.lastSignalTime) > EntryGapMs
            && r == Status(t.eventTime, true, t.price) && opps[0].score <= 0.8)
      && (opps != [] && opps[0].signal.Sell? ==>
            s.positionOpen && ExitScalp(t.price, s.entryPrice) && r == s.(positionOpen := false))
  {
  }

  class ScalperStrategy {
    var tickHistory: seq<real>
    var lastSignalTime: nat
    var positionOpen: bool
    var entryPrice: real

    function Snapshot(): Status
      reads this
    {
      Status(lastSignalTime, positionOpen, entryPrice)
    }

    ghost predicate Valid()
      reads this
    {
      |tickHistory| <= TickWindow && lastSignalTime < U64Modulus
    }

    constructor ()
      ensures Valid()
      ensures tickHistory == [] && Snapshot() == Status(0, false, 0.0)
    {
      tickHistory := [];
      lastSignalTime := 0;
      positionOpen := false;
      entryPrice := 0.0;
    }

    /** `process_trade`: slides the tick window, decides and records one data point; the lifecycle is not stepped. */
    method ProcessTrade(app: AppState, t: TradeEvent) returns (opps: seq<Opportunity>)
      requires Valid() && app.Valid()
      requires t.eventTime < U64Modulus
      modifies this, app
      ensures Valid() && app.Valid()
      ensures tickHistory == PushBounded(old(tickHistory), t.price, TickWindow)
      ensures (Snapshot(), opps) == Decide(old(Snapshot()), app.machine.current == Trading, tickHistory, t)
      ensures app.State() == Recorded(old(app.State()),
        DataPoint(t.eventTime, t.price, t.qty, app.machine.current, ActionOf(opps, "Cancel"), 0.0, Equity(old(app.State()))))
    {
      tickHistory := tickHistory + [t.price];
      if |tickHistory| > TickWindow {
        tickHistory := tickHistory[1..];
      }
      opps := CheckScalp(app.machine.current == Trading, t);
      app.PushDataPointAt(t.price, t.qty, ActionOf(opps, "Cancel"), 0.0, t.eventTime);
    }

    /** The signal part of `process_trade`, on the current tick window. */
    method CheckScalp(trading: bool, t: TradeEvent) returns (opps: seq<Opportunity>)
      requires Valid() && t.eventTime < U64Modulus
      modifies this
      ensures Valid()
      ensures tickHistory == old(tickHistory)
      ensures (Snapshot(), opps) == Decide(old(Snapshot()), trading, tickHistory, t)
    {
      opps := [];
      if trading && |tickHistory| >= MinTicks {
        var n := |tickHistory|;
        var recentAvg := RealSum(tickHistory[n - 5..]) / 5.0;
        var olderAvg := RealSum(tickHistory[n - 10..n - 5]) / 5.0;
        var microTrend := RelativeChange(recentAvg, olderAvg, 10000.0);
        assert microTrend == MicroTrend(tickHistory);
        if !positionOpen && microTrend.Gt(1.0) && WrappingSub(t.eventTime, lastSignalTime) > EntryGapMs {
          positionOpen := true;
          entryPrice := t.price;
          opps := opps + [ScalpBuy(t, microTrend)];
          lastSignalTime := t.eventTime;
          assert opps == [ScalpBuy(t, MicroTrend(tickHistory))];
          assert Snapshot() == Status(t.eventTime, true, t.price);
          assert (Snapshot(), opps) == Decide(old(Snapshot()), trading, tickHistory, t);
        } else if positionOpen {
          var pnlBps := RelativeChange(t.price, entryPrice, 10000.0);
          if pnlBps.Gt(5.0) || pnlBps.Lt(-3.0) {
            positionOpen := false;
            opps := opps + [ScalpSell(t)];
            assert ExitScalp(t.price, entryPrice);
            assert Snapshot() == old(Snapshot()).(positionOpen := false);
            assert opps == [ScalpSell(t)];
            assert (Snapshot(), opps) == Decide(old(Snapshot()), trading, tickHistory, t);
          }
        }
      }
    }

    /** `process_aggr_trade`: the tick joins the window, nothing is emitted or recorded. */
    method ProcessAggrTrade(t: AggTradeEvent) returns (opps: seq<Opportunity>)
      requires Valid()
      modifies this
      ensures Valid()
      ensures opps == []
      ensures tickHistory == PushBounded(old(tickHistory), t.price, TickWindow)
      ensures Snapshot() == old(Snapshot())
    {
      tickHistory := tickHistory + [t.price];
      if |tickHistory| > TickWindow {
        tickHistory := tickHistory[1..];
      }
      opps := [];
    }

    /** `process_orderbook`: never emits and changes nothing. */
    method ProcessOrderbook(book: OrderBook) returns (opps: seq<Opportunity>)
      ensures opps == []
    {
      opps := [];
    }
  }
}
