/** `DCAStrategy`: dollar-cost averaging, one small Buy every fiftieth trade. */
module Dca {
  import opened Common
  import opened Signals
  import opened MarketData
  import opened StateMachine
  import opened Web
  import opened Lifecycle

  /** Trades between two averaging Buys. */
  const BuyInterval: nat := 50

  /** The averaging Buy of the `count`-th trade. */
  function DcaBuy(count: nat, symbol: string, price: real, ts: nat): Opportunity {
    Opportunity("dca_buy_" + NatToString(count), Buy(symbol, Some(price), 0.0001),
      0.6, 0.2, "DCA interval #" + NatToString(count / BuyInterval), ts)
  }

  /** Whether the trade `m` trades after the `count`-th one falls on a multiple of the interval. */
  predicate BuysAfter(count: nat, m: nat) {
    (count + m) % BuyInterval == 0
  }

  /**
   * The "Next Buy In" feature: how many more trades until the next averaging
   * Buy. It is always between 1 and the interval, and it is the least positive
   * number of trades that reaches a multiple of the interval.
   */
  function NextBuyIn(count: nat): (n: nat)
    ensures 1 <= n <= BuyInterval
    ensures BuysAfter(count, n)
    ensures forall m :: 0 < m < n ==> !BuysAfter(count, m)
    ensures n == BuyInterval <==> count % BuyInterval == 0
  {
    var n := BuyInterval - count % BuyInterval;
    assert count == (count / BuyInterval) * BuyInterval + count % BuyInterval;
    assert count + n == (count / BuyInterval + 1) * BuyInterval;
    forall m | 0 < m < n
      ensures !BuysAfter(count, m)
    {
      assert count + m == (count / BuyInterval) * BuyInterval + (count % BuyInterval + m);
      DivModUnique(count + m, count / BuyInterval, count % BuyInterval + m);
    }
    DivModUnique(count + n, count / BuyInterval + 1, 0);
    n
  }

  /** Quotient and remainder by the interval are determined by `x == q * 50 + r` with `0 <= r < 50`. */
  lemma DivModUnique(x: nat, q: int, r: int)
    requires 0 <= r < BuyInterval && x == q * BuyInterval + r
    ensures x % BuyInterval == r
  {
    var k := q - x / BuyInterval;
    assert k * BuyInterval == x % BuyInterval - r;
  }

  class DcaStrategy {
    var tradeCount: nat
    var lastSpread: real

    constructor ()
      ensures tradeCount == 0 && lastSpread == 0.0
    {
      tradeCount := 0;
      lastSpread := 0.0;
    }

    /** `get_features`: the interval, the trade count and the trades left until the next Buy. */
    function Features(): (features: seq<(string, string)>)
      reads this
      ensures |features| == 3
      ensures features[1] == ("Total Trades", NatToString(tradeCount))
    {
      [("Interval", NatToString(BuyInterval)),
       ("Total Trades", NatToString(tradeCount)),
       ("Next Buy In", NatToString(NextBuyIn(tradeCount)))]
    }

    /**
     * `handle_trade`: counts the trade, steps the lifecycle, emits the
     * averaging Buy exactly when Trading on a multiple of the interval, never a
     * Sell, and records one data point.
     */
    method HandleTrade(app: AppState, symbol: string, price: real, qty: real, ts: nat, now: nat)
      returns (opps: seq<Opportunity>)
      requires app.Valid()
      modifies this, app, app.machine, app.machine.transitions
      ensures app.Valid()
      ensures tradeCount == old(tradeCount) + 1 && lastSpread == old(lastSpread)
      ensures app.machine.current == OnMarketData(old(app.machine.current), old(app.machine.IsStable(now)))
      ensures |opps| <= 1
      ensures opps != [] <==> app.machine.current == Trading && tradeCount % BuyInterval == 0
      ensures opps != [] ==> opps[0] == DcaBuy(tradeCount, symbol, price, ts)
      ensures app.State() == Recorded(old(app.State()),
        DataPoint(ts, price, qty, app.machine.current, if opps == [] then None else Some("Buy"), lastSpread,
          Equity(old(app.State()))))
    {
      tradeCount := tradeCount + 1;
      StepOnTrade(app, now);
      opps := [];
      if app.machine.current == Trading && tradeCount % BuyInterval == 0 {
        opps := opps + [DcaBuy(tradeCount, symbol, price, ts)];
      }
      var action := if opps == [] then None else Some("Buy");
      app.PushDataPointAt(price, qty, action, lastSpread, ts);
    }

    /** `process_orderbook`: only the remembered spread changes, and nothing is emitted. */
    method ProcessOrderbook(book: OrderBook) returns (opps: seq<Opportunity>)
      modifies this
      ensures opps == []
      ensures tradeCount == old(tradeCount)
      ensures lastSpread == BookSpread(book).GetOr(old(lastSpread))
    {
      if book.bids != [] && book.asks != [] {
        lastSpread := book.asks[0].price - book.bids[0].price;
      }
      opps := [];
    }
  }
}
