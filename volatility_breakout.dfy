/** `VolatilityBreakout`: buy a breakout above the 10-price range, exit on a small move. */
module Breakout {
  import opened Common
  import opened Signals
  import opened MarketData
  import opened StateMachine
  import opened Web
  import opened Lifecycle

  /** Most prices kept. */
  const WindowSize: nat := 30
  /** Prices the range is taken over. */
  const RangeSpan: nat := 10

  /** The largest element of a non-empty series. */
  function MaxOf(s: seq<real>): (m: real)
    requires |s| >= 1
    ensures forall i :: 0 <= i < |s| ==> s[i] <= m
    ensures exists i :: 0 <= i < |s| && s[i] == m
  {
    if |s| == 1 then s[0]
    else
      var rest := MaxOf(s[1..]);
      assert forall i :: 1 <= i < |s| ==> s[i] == s[1..][i - 1];
      if s[0] < rest then rest else s[0]
  }

  /** The smallest element of a non-empty series. */
  function MinOf(s: seq<real>): (m: real)
    requires |s| >= 1
    ensures forall i :: 0 <= i < |s| ==> m <= s[i]
    ensures exists i :: 0 <= i < |s| && s[i] == m
  {
    if |s| == 1 then s[0]
    else
      var rest := MinOf(s[1..]);
      assert forall i :: 1 <= i < |s| ==> s[i] == s[1..][i - 1];
      if s[0] < rest then s[0] else rest
  }

  /**
   * `get_range`: (0, 0) with fewer than 10 prices, otherwise the highest and
   * lowest of the last 10, so the high is never below the low.
   */
  function GetRange(prices: seq<real>): (range: (real, real))
    ensures range.0 >= range.1
    ensures |prices| < RangeSpan ==> range == (0.0, 0.0)
    ensures |prices| >= RangeSpan ==> forall i :: |prices| - RangeSpan <= i < |prices| ==> range.1 <= prices[i] <= range.0
  {
    if |prices| < RangeSpan then (0.0, 0.0)
    else
      var recent := prices[|prices| - RangeSpan..];
      assert forall i :: |prices| - RangeSpan <= i < |prices| ==> prices[i] == recent[i - (|prices| - RangeSpan)];
      (MaxOf(recent), MinOf(recent))
  }

  /**
   * Over exact prices the breakout can never fire: the current price is the
   * newest price of the window, so it is at most the high, never above
   * `high + 1%` of a positive range.
   */
  lemma NoBreakout(prices: seq<real>, price: real)
    requires prices != [] && prices[|prices| - 1] == price
    ensures var (high, low) := GetRange(prices);
      !(high - low > 0.0 && price > high + (high - low) * 0.01)
  {
    var (high, low) := GetRange(prices);
    if |prices| >= RangeSpan {
      assert price <= high;
    }
  }

  function BreakoutBuy(count: nat, symbol: string, price: real, ts: nat): Opportunity {
    Opportunity("vb_buy_" + NatToString(count), Buy(symbol, Some(price), 0.001), 0.7, 0.4, "Breakout above range", ts)
  }

  function BreakoutExit(count: nat, symbol: string, price: real, ts: nat): Opportunity {
    Opportunity("vb_sell_" + NatToString(count), Sell(symbol, Some(price), 0.001), 0.7, 0.3, "Exit", ts)
  }

  /** Exit threshold: more than +0.2% or less than -0.1% from the entry. */
  predicate ExitMove(price: real, entry: real) {
    var pnl := RelativeChange(price, entry, 100.0);
    pnl.Gt(0.2) || pnl.Lt(-0.1)
  }

  class VolatilityBreakout {
    var prices: seq<real>
    var tradeCount: nat
    var lastSpread: real
    var inPosition: bool
    var entryPrice: real

    ghost predicate Valid()
      reads this
    {
      |prices| <= WindowSize
    }

    constructor ()
      ensures Valid()
      ensures prices == [] && tradeCount == 0 && lastSpread == 0.0 && !inPosition && entryPrice == 0.0
    {
      prices := [];
      tradeCount := 0;
      lastSpread := 0.0;
      inPosition := false;
      entryPrice := 0.0;
    }

    /**
     * `handle_trade`: counts the trade, slides the window, steps the lifecycle
     * and applies the breakout logic; see `CheckBreakout`.
     */
    method HandleTrade(app: AppState, symbol: string, price: real, qty: real, ts: nat, now: nat)
      returns (opps: seq<Opportunity>)
      requires Valid() && app.Valid()
      modifies this, app, app.machine, app.machine.transitions
      ensures Valid() && app.Valid()
      ensures prices == PushBounded(old(prices), price, WindowSize)
      ensures tradeCount == old(tradeCount) + 1 && lastSpread == old(lastSpread) && entryPrice == old(entryPrice)
      ensures app.machine.current == OnMarketData(old(app.machine.current), old(app.machine.IsStable(now)))
      ensures forall i :: 0 <= i < |opps| ==> opps[i] == BreakoutExit(tradeCount, symbol, price, ts)
      ensures !old(inPosition) ==> opps == [] && !inPosition
      ensures old(inPosition) ==> (opps != [] <==> !inPosition)
      ensures opps != [] <==> (old(inPosition) && app.machine.current == Trading
                               && GetRange(prices).0 - GetRange(prices).1 > 0.0 && ExitMove(price, entryPrice))
      ensures |opps| <= 1
      ensures app.State() == Recorded(old(app.State()),
        DataPoint(ts, price, qty, app.machine.current, ActionOf(opps, "Hold"), lastSpread, Equity(old(app.State()))))
    {
      tradeCount := tradeCount + 1;
      prices := prices + [price];
      if |prices| > WindowSize {
        prices := prices[1..];
      }
      StepOnTrade(app, now);
      opps := CheckBreakout(app.machine.current == Trading, symbol, price, ts);
      app.PushDataPointAt(price, qty, ActionOf(opps, "Hold"), lastSpread, ts);
    }

    /**
     * The signal part of `handle_trade` once the newest price is in the window.
     * The Buy can never fire, so a strategy that starts flat stays flat and
     * silent; an open position (which only the initial state could hold) is
     * closed on an exit move while Trading with a positive range.
     */
    method CheckBreakout(trading: bool, symbol: string, price: real, ts: nat) returns (opps: seq<Opportunity>)
      requires prices != [] && prices[|prices| - 1] == price
      modifies this
      ensures prices == old(prices) && tradeCount == old(tradeCount) && lastSpread == old(lastSpread)
      ensures entryPrice == old(entryPrice)
      ensures forall i :: 0 <= i < |opps| ==> opps[i] == BreakoutExit(tradeCount, symbol, price, ts)
      ensures !old(inPosition) ==> opps == [] && !inPosition
      ensures old(inPosition) ==> (opps != [] <==> !inPosition)
      ensures opps != [] <==> (old(inPosition) && trading
                               && GetRange(prices).0 - GetRange(prices).1 > 0.0 && ExitMove(price, entryPrice))
      ensures |opps| <= 1
    {
      opps := [];
      if trading {
        var (high, low) := GetRange(prices);
        var range := high - low;
        if range > 0.0 {
          NoBreakout(prices, price);
          var held, entry := inPosition, entryPrice;
          if !held && price > high + range * 0.01 {
            held, entry := true, price;
            opps := opps + [BreakoutBuy(tradeCount, symbol, price, ts)];
          }
          if held {
            var pnl := RelativeChange(price, entry, 100.0);
            if pnl.Gt(0.2) || pnl.Lt(-0.1) {
              held := false;
              opps := opps + [BreakoutExit(tradeCount, symbol, price, ts)];
            }
          }
          inPosition, entryPrice := held, entry;
        }
      }
    }

    /** `process_orderbook`: only the remembered spread changes, and nothing is emitted. */
    method ProcessOrderbook(book: OrderBook) returns (opps: seq<Opportunity>)
      modifies this
      ensures opps == []
      ensures prices == old(prices) && tradeCount == old(tradeCount)
      ensures inPosition == old(inPosition) && entryPrice == old(entryPrice)
      ensures lastSpread == BookSpread(book).GetOr(old(lastSpread))
    {
      if book.bids != [] && book.asks != [] {
        lastSpread := book.asks[0].price - book.bids[0].price;
      }
      opps := [];
    }
  }
}
