/** `SwingTrader`: enter long on 20-trade momentum, exit on reversal, target or stop. */
module Swing {
  import opened Common
  import opened Signals
  import opened MarketData
  import opened StateMachine
  import opened Web
  import opened Lifecycle

  /** Most prices kept. */
  const WindowSize: nat := 50
  /** Prices the momentum spans. */
  const MomentumSpan: nat := 20

  /** `get_momentum`: 0 with fewer than 20 prices, else the percent change from the price 19 steps back. */
  function Momentum(prices: seq<real>): (m: Quotient)
    ensures |prices| < MomentumSpan ==> m == Finite(0.0)
  {
    if |prices| < MomentumSpan then Finite(0.0)
    else RelativeChange(prices[|prices| - 1], prices[|prices| - MomentumSpan], 100.0)
  }

  function SwingBuy(count: nat, symbol: string, price: real, ts: nat): Opportunity {
    Opportunity("swing_buy_" + NatToString(count), Buy(symbol, Some(price), 0.001), 0.75, 0.35, "Strong momentum", ts)
  }

  function SwingSell(count: nat, symbol: string, price: real, ts: nat): Opportunity {
    Opportunity("swing_sell_" + NatToString(count), Sell(symbol, Some(price), 0.001), 0.75, 0.3, "Exit", ts)
  }

  /** The exit test for a long position entered at `entry`. */
  predicate ExitLong(momentum: Quotient, price: real, entry: real) {
    var pnl := RelativeChange(price, entry, 100.0);
    momentum.Lt(-0.2) || pnl.Gt(1.0) || pnl.Lt(-0.5)
  }

  /**
   * The position logic of `handle_trade` when `trading`: enter long when flat
   * on momentum above 0.1%, then exit a long on the exit test. Returns the new
   * position, entry price and opportunities.
   */
  function Decide(position: int, entry: real, trading: bool, momentum: Quotient,
                  count: nat, symbol: string, price: real, ts: nat): (int, real, seq<Opportunity>)
  {
    if !trading then (position, entry, [])
    else
      var buying := position == 0 && momentum.Gt(0.1);
      var held := if buying then 1 else position;
      var entered := if buying then price else entry;
      var bought := if buying then [SwingBuy(count, symbol, price, ts)] else [];
      if held == 1 && ExitLong(momentum, price, entered) then (0, entered, bought + [SwingSell(count, symbol, price, ts)])
      else (held, entered, bought)
  }

  /**
   * The position stays flat (0) or long (1), never short; at most one
   * opportunity per call; a Buy goes flat -> long at the trade price and is
   * never followed by an exit in the same call; a Sell goes long -> flat.
   */
  lemma DecideProps(position: int, entry: real, trading: bool, momentum: Quotient,
                    count: nat, symbol: string, price: real, ts: nat)
    requires position == 0 || position == 1
    ensures var (p, e, opps) := Decide(position, entry, trading, momentum, count, symbol, price, ts);
      && (p == 0 || p == 1)
      && |opps| <= 1
      && (opps == [] ==> p == position && e == entry)
      && (opps != [] && opps[0].signal.Buy? ==>
            position == 0 && momentum.Gt(0.1) && trading && p == 1 && e == price)
      && (opps != [] && opps[0].signal.Sell? ==> position == 1 && trading && p == 0 && ExitLong(momentum, price, entry))
  {
    if trading && position == 0 && momentum.Gt(0.1) {
      NoChangeAgainstItself(price, 100.0, 1.0);
      NoChangeAgainstItself(price, 100.0, -0.5);
      assert !momentum.Lt(-0.2);
    }
  }

  class SwingTrader {
    var prices: seq<real>
    var tradeCount: nat
    var lastSpread: real
    /** 0 flat, 1 long; short (-1) is never entered. */
    var position: int
    var entryPrice: real

    ghost predicate Valid()
      reads this
    {
      |prices| <= WindowSize && (position == 0 || position == 1)
    }

    constructor ()
      ensures Valid()
      ensures prices == [] && tradeCount == 0 && lastSpread == 0.0 && position == 0 && entryPrice == 0.0
    {
      prices := [];
      tradeCount := 0;
      lastSpread := 0.0;
      position := 0;
      entryPrice := 0.0;
    }

    /** `handle_trade`: counts the trade, slides the window, steps the lifecycle, decides and records one data point. */
    method HandleTrade(app: AppState, symbol: string, price: real, qty: real, ts: nat, now: nat)
      returns (opps: seq<Opportunity>)
      requires Valid() && app.Valid()
      modifies this, app, app.machine, app.machine.transitions
      ensures Valid() && app.Valid()
      ensures prices == PushBounded(old(prices), price, WindowSize)
      ensures tradeCount == old(tradeCount) + 1 && lastSpread == old(lastSpread)
      ensures app.machine.current == OnMarketData(old(app.machine.current), old(app.machine.IsStable(now)))
      ensures (position, entryPrice, opps) == Decide(old(position), old(entryPrice), app.machine.current == Trading,
        Momentum(prices), tradeCount, symbol, price, ts)
      ensures app.State() == Recorded(old(app.State()),
        DataPoint(ts, price, qty, app.machine.current, ActionOf(opps, "Hold"), lastSpread, Equity(old(app.State()))))
    {
      tradeCount := tradeCount + 1;
      prices := prices + [price];
      if |prices| > WindowSize {
        prices := prices[1..];
      }
      StepOnTrade(app, now);
      opps := CheckSwing(app.machine.current == Trading, symbol, price, ts);
      app.PushDataPointAt(price, qty, ActionOf(opps, "Hold"), lastSpread, ts);
    }

    /** The position part of `handle_trade`, on the current window. */
    method CheckSwing(trading: bool, symbol: string, price: real, ts: nat) returns (opps: seq<Opportunity>)
      requires Valid()
      modifies this
      ensures Valid()
      ensures prices == old(prices) && tradeCount == old(tradeCount) && lastSpread == old(lastSpread)
      ensures (position, entryPrice, opps) == Decide(old(position), old(entryPrice), trading,
        Momentum(prices), tradeCount, symbol, price, ts)
    {
      DecideProps(position, entryPrice, trading, Momentum(prices), tradeCount, symbol, price, ts);
      opps := [];
      if trading {
        var momentum := Momentum(prices);
        ghost var buying := position == 0 && momentum.Gt(0.1);
        if position == 0 && momentum.Gt(0.1) {
          position := 1;
          entryPrice := price;
          opps := opps + [SwingBuy(tradeCount, symbol, price, ts)];
        }
        assert opps == if buying then [SwingBuy(tradeCount, symbol, price, ts)] else [];
        if position == 1 {
          var pnl := RelativeChange(price, entryPrice, 100.0);
          if momentum.Lt(-0.2) || pnl.Gt(1.0) || pnl.Lt(-0.5) {
            position := 0;
            opps := opps + [SwingSell(tradeCount, symbol, price, ts)];
          }
        }
      }
    }

    /** `process_orderbook`: only the remembered spread changes, and nothing is emitted. */
    method ProcessOrderbook(book: OrderBook) returns (opps: seq<Opportunity>)
      modifies this
      ensures opps == []
      ensures prices == old(prices) && tradeCount == old(tradeCount)
      ensures position == old(position) && entryPrice == old(entryPrice)
      ensures lastSpread == BookSpread(book).GetOr(old(lastSpread))
    {
      if book.bids != [] && book.asks != [] {
        lastSpread := book.asks[0].price - book.bids[0].price;
      }
      opps := [];
    }
  }
}
