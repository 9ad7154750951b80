/** `MartingaleStrategy`: periodic entries whose size doubles after each stop-loss, capped at five doublings. */
module Martingale {
  import opened Common
  import opened Signals
  import opened MarketData
  import opened StateMachine
  import opened Web
  import opened Lifecycle

  /** The base entry size, restored on every take-profit. */
  const BaseSize: real := 0.0001
  /** Quantity of every exit Sell, whatever the entry size. */
  const ExitQuantity: real := 0.001
  /** Trades between two entry opportunities. */
  const EntryInterval: nat := 100

  function Pow2(n: nat): (p: nat)
    ensures p >= 1
  {
    if n == 0 then 1 else 2 * Pow2(n - 1)
  }

  /** `position_size * 2^min(losses, 5)`. */
  function EntrySize(positionSize: real, losses: nat): real {
    positionSize * Pow2(if losses < 5 then losses else 5) as real
  }

  /**
   * From the base size the entry never goes below the base nor above 32 times
   * it; each loss doubles it up to the fifth, and later losses leave it at the cap.
   */
  lemma EntrySizeBounds(losses: nat)
    ensures BaseSize <= EntrySize(BaseSize, losses) <= 32.0 * BaseSize
    ensures losses < 5 ==> EntrySize(BaseSize, losses + 1) == 2.0 * EntrySize(BaseSize, losses)
    ensures losses >= 5 ==> EntrySize(BaseSize, losses) == 32.0 * BaseSize
  {
    var e := if losses < 5 then losses else 5;
    assert Pow2(0) == 1 && Pow2(1) == 2 && Pow2(2) == 4 && Pow2(3) == 8 && Pow2(4) == 16 && Pow2(5) == 32;
    assert 1 <= Pow2(e) <= 32;
  }

  /** The strategy's fields, as one value. */
  datatype Status = Status(
    tradeCount: nat,
    lastSpread: real,
    lastTradePrice: real,
    positionSize: real,
    inPosition: bool,
    consecutiveLosses: nat)

  /** `(price - entry) / entry * 100`, with the `f64` outcomes of a zero entry price. */
  function PnlPercent(price: real, entry: real): Quotient {
    RelativeChange(price, entry, 100.0)
  }

  function EntryOpportunity(b: Status, symbol: string, price: real, ts: nat): Opportunity {
    Opportunity("mart_buy_" + NatToString(b.tradeCount),
      Buy(symbol, Some(price), EntrySize(b.positionSize, b.consecutiveLosses)), 0.6, 0.6, "Martingale entry", ts)
  }

  function TakeProfitOpportunity(count: nat, symbol: string, price: real, ts: nat): Opportunity {
    Opportunity("mart_sell_tp_" + NatToString(count), Sell(symbol, Some(price), ExitQuantity), 0.7, 0.2, "Take profit", ts)
  }

  function StopLossOpportunity(count: nat, symbol: string, price: real, ts: nat): Opportunity {
    Opportunity("mart_sell_sl_" + NatToString(count), Sell(symbol, Some(price), ExitQuantity), 0.5, 0.5, "Stop loss", ts)
  }

  /**
   * The decision of `handle_trade` on book `b` (trade already counted) with
   * the machine in `state`: enter on every hundredth trade when flat, then
   * exit on a move of more than 0.2% either way.
   */
  function Decide(b: Status, state: SystemState, symbol: string, price: real, ts: nat): (Status, seq<Opportunity>) {
    if state != Trading then (b, [])
    else
      var entering := !b.inPosition && b.tradeCount % EntryInterval == 0;
      var b1 := if entering then b.(inPosition := true, lastTradePrice := price) else b;
      var o1 := if entering then [EntryOpportunity(b, symbol, price, ts)] else [];
      if !b1.inPosition then (b1, o1)
      else
        var pnl := PnlPercent(price, b1.lastTradePrice);
        if pnl.Gt(0.2) then
          (b1.(inPosition := false, consecutiveLosses := 0, positionSize := BaseSize),
           o1 + [TakeProfitOpportunity(b.tradeCount, symbol, price, ts)])
        else if pnl.Lt(-0.2) then
          (b1.(inPosition := false, consecutiveLosses := b1.consecutiveLosses + 1),
           o1 + [StopLossOpportunity(b.tradeCount, symbol, price, ts)])
        else (b1, o1)
  }

  /** An entry is priced at the trade itself, so the same call can never exit. */
  lemma NoExitOnEntryPrice(price: real)
    ensures !PnlPercent(price, price).Gt(0.2) && !PnlPercent(price, price).Lt(-0.2)
  {
    NoChangeAgainstItself(price, 100.0, 0.2);
    NoChangeAgainstItself(price, 100.0, -0.2);
  }

  /**
   * At most one opportunity per call, and the book changes exactly when one is
   * emitted; outside Trading nothing happens.
   */
  lemma DecideAtMostOne(b: Status, state: SystemState, symbol: string, price: real, ts: nat)
    ensures var (r, opps) := Decide(b, state, symbol, price, ts);
      && |opps| <= 1
      && (opps == [] <==> r == b)
      && (state != Trading ==> opps == [])
  {
    NoExitOnEntryPrice(price);
  }

  /**
   * A Buy is emitted exactly when Trading, flat and on a multiple of the
   * interval; it carries the doubled size and opens the position at the trade price.
   */
  lemma DecideEntry(b: Status, state: SystemState, symbol: string, price: real, ts: nat)
    ensures var (r, opps) := Decide(b, state, symbol, price, ts);
      && ((opps != [] && opps[0].signal.Buy?) <==> state == Trading && !b.inPosition && b.tradeCount % EntryInterval == 0)
      && (opps != [] && opps[0].signal.Buy? ==>
            opps[0].signal.quantity == EntrySize(b.positionSize, b.consecutiveLosses)
            && r == b.(inPosition := true, lastTradePrice := price))
  {
    NoExitOnEntryPrice(price);
  }

  /**
   * A Sell is emitted only from an open position and always for 0.001; a
   * take-profit (above +0.2%) clears the losses and restores the base size, a
   * stop-loss (below -0.2%) counts one more loss.
   */
  lemma DecideExit(b: Status, state: SystemState, symbol: string, price: real, ts: nat)
    ensures var (r, opps) := Decide(b, state, symbol, price, ts);
      opps != [] && opps[0].signal.Sell? ==>
        && state == Trading && b.inPosition && !r.inPosition
        && opps[0].signal.quantity == ExitQuantity
        && (PnlPercent(price, b.lastTradePrice).Gt(0.2) ==>
              r == b.(inPosition := false, consecutiveLosses := 0, positionSize := BaseSize))
        && (PnlPercent(price, b.lastTradePrice).Lt(-0.2) ==>
              r == b.(inPosition := false, consecutiveLosses := b.consecutiveLosses + 1))
  {
    if state == Trading {
      var entering := !b.inPosition && b.tradeCount % EntryInterval == 0;
      if entering {
        NoExitOnEntryPrice(price);
      } else if b.inPosition {
        var pnl := PnlPercent(price, b.lastTradePrice);
        QuotientTrichotomy(pnl, 0.2);
        QuotientTrichotomy(pnl, -0.2);
      }
    }
  }

  class MartingaleStrategy {
    var tradeCount: nat
    var lastSpread: real
    var lastTradePrice: real
    var positionSize: real
    var inPosition: bool
    var consecutiveLosses: nat

    function Snapshot(): Status
      reads this
    {
      Status(tradeCount, lastSpread, lastTradePrice, positionSize, inPosition, consecutiveLosses)
    }

    /** The base size is the only size ever stored; doubling happens when an entry is sized. */
    ghost predicate Valid()
      reads this
    {
      positionSize == BaseSize
    }

    constructor ()
      ensures Valid()
      ensures Snapshot() == Status(0, 0.0, 0.0, BaseSize, false, 0)
    {
      tradeCount := 0;
      lastSpread := 0.0;
      lastTradePrice := 0.0;
      positionSize := BaseSize;
      inPosition := false;
      consecutiveLosses := 0;
    }

    /** The "Next Size" feature: the size the next entry would have, between the base and 32 times it. */
    function NextSize(): (size: real)
      reads this
      requires Valid()
      ensures BaseSize <= size <= 32.0 * BaseSize
    {
      EntrySizeBounds(consecutiveLosses);
      EntrySize(positionSize, consecutiveLosses)
    }

    /** `handle_trade`: counts the trade, steps the lifecycle, decides, and records one data point. */
    method HandleTrade(app: AppState, symbol: string, price: real, qty: real, ts: nat, now: nat)
      returns (opps: seq<Opportunity>)
      requires Valid() && app.Valid()
      modifies this, app, app.machine, app.machine.transitions
      ensures Valid() && app.Valid()
      ensures app.machine.current == OnMarketData(old(app.machine.current), old(app.machine.IsStable(now)))
      ensures (Snapshot(), opps) ==
        Decide(old(Snapshot()).(tradeCount := old(tradeCount) + 1), app.machine.current, symbol, price, ts)
      ensures app.State() == Recorded(old(app.State()),
        DataPoint(ts, price, qty, app.machine.current, ActionOf(opps, "Hold"), lastSpread, Equity(old(app.State()))))
    {
      tradeCount := tradeCount + 1;
      StepOnTrade(app, now);
      opps := CheckMartingale(app.machine.current, symbol, price, ts);
      app.PushDataPointAt(price, qty, ActionOf(opps, "Hold"), lastSpread, ts);
    }

    /** The entry and exit part of `handle_trade`, once the lifecycle has stepped to `state`. */
    method CheckMartingale(state: SystemState, symbol: string, price: real, ts: nat) returns (opps: seq<Opportunity>)
      requires Valid()
      modifies this
      ensures Valid()
      ensures (Snapshot(), opps) == Decide(old(Snapshot()), state, symbol, price, ts)
    {
      ghost var before := Snapshot();
      opps := [];
      if state == Trading {
        ghost var entering := !inPosition && tradeCount % EntryInterval == 0;
        if !inPosition && tradeCount % EntryInterval == 0 {
          inPosition := true;
          lastTradePrice := price;
          var size := EntrySize(positionSize, consecutiveLosses);
          opps := opps + [Opportunity("mart_buy_" + NatToString(tradeCount),
            Buy(symbol, Some(price), size), 0.6, 0.6, "Martingale entry", ts)];
        }
        assert Snapshot() == (if entering then before.(inPosition := true, lastTradePrice := price) else before);
        assert opps == (if entering then [EntryOpportunity(before, symbol, price, ts)] else []);
        if inPosition {
          var pnl := PnlPercent(price, lastTradePrice);
          if pnl.Gt(0.2) {
            inPosition := false;
            consecutiveLosses := 0;
            positionSize := BaseSize;
            opps := opps + [TakeProfitOpportunity(tradeCount, symbol, price, ts)];
          } else if pnl.Lt(-0.2) {
            inPosition := false;
            consecutiveLosses := consecutiveLosses + 1;
            opps := opps + [StopLossOpportunity(tradeCount, symbol, price, ts)];
          }
        }
      }
    }

    /** `process_orderbook`: only the remembered spread changes, and nothing is emitted. */
    method ProcessOrderbook(book: OrderBook) returns (opps: seq<Opportunity>)
      modifies this
      ensures opps == []
      ensures Snapshot() == old(Snapshot()).(lastSpread := BookSpread(book).GetOr(old(lastSpread)))
    {
      if book.bids != [] && book.asks != [] {
        lastSpread := book.asks[0].price - book.bids[0].price;
      }
      opps := [];
    }
  }
}
