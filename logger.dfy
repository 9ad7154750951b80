/** `PaperTrader`: the mock strategy that drives the lifecycle and emits scripted opportunities. */
module Logger {
  import opened Common
  import opened Signals
  import opened MarketData
  import opened StateMachine
  import opened Web
  import opened Lifecycle

  /** The mock Buy of the `count`-th trade: 0.001 at 0.1% under the trade price. */
  function BuyOpportunity(count: nat, symbol: string, price: real, ts: nat): Opportunity {
    Opportunity("buy_" + NatToString(count), Buy(symbol, Some(price * 0.999), 0.001),
      0.85, 0.2, "Strong momentum detected with low volatility", ts)
  }

  /** The mock Sell of the `count`-th trade: 0.001 at 0.1% over the trade price. */
  function SellOpportunity(count: nat, symbol: string, price: real, ts: nat): Opportunity {
    Opportunity("sell_" + NatToString(count), Sell(symbol, Some(price * 1.001), 0.001),
      0.65, 0.4, "Local resistance breakout attempt", ts)
  }

  /** What `handle_trade_data` emits on its `count`-th trade when the machine is in `state` afterwards. */
  function TradeOpportunities(state: SystemState, count: nat, symbol: string, price: real, ts: nat): seq<Opportunity> {
    if state != Trading then []
    else
      (if count % 5 == 0 then [BuyOpportunity(count, symbol, price, ts)] else [])
      + (if count % 8 == 0 then [SellOpportunity(count, symbol, price, ts)] else [])
  }

  /**
   * Nothing is emitted outside Trading; in Trading a Buy is emitted iff the
   * count is a multiple of 5 and a Sell iff it is a multiple of 8, so at a
   * multiple of 40 both are, the Buy first.
   */
  lemma TradeOpportunitiesProps(state: SystemState, count: nat, symbol: string, price: real, ts: nat)
    ensures var opps := TradeOpportunities(state, count, symbol, price, ts);
      && (state != Trading ==> opps == [])
      && |opps| <= 2
      && ((exists i :: 0 <= i < |opps| && opps[i].signal.Buy?) <==> state == Trading && count % 5 == 0)
      && ((exists i :: 0 <= i < |opps| && opps[i].signal.Sell?) <==> state == Trading && count % 8 == 0)
      && (state == Trading && count % 40 == 0 ==> |opps| == 2 && opps[0].signal.Buy? && opps[1].signal.Sell?)
  {
    var opps := TradeOpportunities(state, count, symbol, price, ts);
    var buy, sell := BuyOpportunity(count, symbol, price, ts), SellOpportunity(count, symbol, price, ts);
    if count % 40 == 0 {
      MultipleOfForty(count);
    }
    if state == Trading {
      if count % 5 == 0 && count % 8 == 0 {
        assert opps == [buy, sell];
        assert opps[0].signal.Buy? && opps[1].signal.Sell?;
      } else if count % 5 == 0 {
        assert opps == [buy];
        assert opps[0].signal.Buy?;
      } else if count % 8 == 0 {
        assert opps == [sell];
        assert opps[0].signal.Sell?;
      } else {
        assert opps == [];
      }
    }
  }

  lemma MultipleOfForty(count: nat)
    requires count % 40 == 0
    ensures count % 5 == 0 && count % 8 == 0
  {
    var k := count / 40;
    assert count == 5 * (8 * k);
    assert count == 8 * (5 * k);
  }

  /** Mid price of the best levels, or 0 when a side is empty. */
  function BookMid(book: OrderBook): real {
    if book.bids != [] && book.asks != [] then (book.bids[0].price + book.asks[0].price) / 2.0 else 0.0
  }

  /** Mean quantity of the best levels, or 0 when a side is empty. */
  function BookVolume(book: OrderBook): real {
    if book.bids != [] && book.asks != [] then (book.bids[0].qty + book.asks[0].qty) / 2.0 else 0.0
  }

  /**
   * The spread score of an order book: the best-level spread relative to the
   * mid price, scaled by 1000; 0 when a side is empty or the mid price is 0.
   */
  function SpreadScore(book: OrderBook): real {
    var mid := BookMid(book);
    if mid != 0.0 then (book.asks[0].price - book.bids[0].price) / mid * 1000.0 else 0.0
  }

  /**
   * The imbalance score of an order book: best bid quantity minus best ask
   * quantity over their sum; 0 when a side is empty or that sum is 0.
   */
  function ImbalanceScore(book: OrderBook): real {
    if book.bids != [] && book.asks != [] && book.bids[0].qty + book.asks[0].qty != 0.0
    then (book.bids[0].qty - book.asks[0].qty) / (book.bids[0].qty + book.asks[0].qty)
    else 0.0
  }

  /** With non-negative best quantities that are not both zero, the imbalance lies in [-1, 1]. */
  lemma ImbalanceScoreBounded(book: OrderBook)
    requires book.bids != [] && book.asks != []
    requires book.bids[0].qty >= 0.0 && book.asks[0].qty >= 0.0
    ensures -1.0 <= ImbalanceScore(book) <= 1.0
    ensures book.bids[0].qty > book.asks[0].qty <==> ImbalanceScore(book) > 0.0
  {
    var b, a := book.bids[0].qty, book.asks[0].qty;
    if b + a != 0.0 {
      var d, q := b + a, (b - a) / (b + a);
      assert ImbalanceScore(book) == q;
      assert q * d == b - a;
      ScaledBounds(q, d, b - a, a, b);
    }
  }

  /** From `q * d == b - a` with `d == a + b > 0` and `a, b >= 0`: `q` lies in [-1, 1] and has the sign of `b - a`. */
  lemma ScaledBounds(q: real, d: real, diff: real, a: real, b: real)
    requires a >= 0.0 && b >= 0.0 && d == a + b && d > 0.0 && diff == b - a && q * d == diff
    ensures -1.0 <= q <= 1.0 && (b > a <==> q > 0.0)
  {
    assert (1.0 - q) * d == 2.0 * a;
    assert (q + 1.0) * d == 2.0 * b;
    if q > 0.0 {
      assert q * d > 0.0;
    }
    if q <= 0.0 {
      assert q * d <= 0.0;
    }
  }

  class PaperTrader {
    var tradeCount: nat
    var lastPrice: Option<real>
    var lastSpread: real

    constructor ()
      ensures tradeCount == 0 && lastPrice == None && lastSpread == 0.0
    {
      tradeCount := 0;
      lastPrice := None;
      lastSpread := 0.0;
    }

    /**
     * `handle_trade_data` (shared by trades and aggTrades): counts the trade,
     * steps the lifecycle, remembers the price, emits the scripted
     * opportunities and records one data point labelled by the first of them.
     */
    method HandleTradeData(app: AppState, symbol: string, price: real, qty: real, ts: nat, now: nat)
      returns (opps: seq<Opportunity>)
      requires app.Valid()
      modifies this, app, app.machine, app.machine.transitions
      ensures app.Valid()
      ensures tradeCount == old(tradeCount) + 1 && lastPrice == Some(price) && lastSpread == old(lastSpread)
      ensures app.machine.current == OnMarketData(old(app.machine.current), old(app.machine.IsStable(now)))
      ensures opps == TradeOpportunities(app.machine.current, tradeCount, symbol, price, ts)
      ensures app.State() == Recorded(old(app.State()),
        DataPoint(ts, price, qty, app.machine.current, ActionOf(opps, "Cancel"), lastSpread, Equity(old(app.State()))))
    {
      tradeCount := tradeCount + 1;
      StepOnTrade(app, now);
      lastPrice := Some(price);
      opps := TradeOpportunities(app.machine.current, tradeCount, symbol, price, ts);
      app.PushDataPointAt(price, qty, ActionOf(opps, "Cancel"), lastSpread, ts);
    }

    /**
     * `process_orderbook`, its lifecycle and bookkeeping part: remembers the
     * spread when both sides have a level, may only move Booting ->
     * Accumulating, rewrites the (new) current state's row of the inferred
     * matrix from the book's spread and imbalance scores (volatility 0),
     * records the mid price (stamped at wall-clock second `nowSecs`) when it
     * is positive, and never emits.
     */
    method ProcessOrderbook(app: AppState, book: OrderBook, now: nat, nowSecs: nat)
      returns (opps: seq<Opportunity>)
      requires app.Valid()
      modifies this, app, app.machine, app.machine.transitions, app.machine.inferred
      ensures app.Valid()
      ensures opps == []
      ensures forall i, j :: 0 <= i < StateCount && 0 <= j < StateCount ==>
        app.machine.inferred[i, j] ==
          if i == ToIndex(app.machine.current)
          then InferredRow(app.machine.current, SpreadScore(book), ImbalanceScore(book), 0.0)[j]
          else old(app.machine.inferred[i, j])
      ensures tradeCount == old(tradeCount) && lastPrice == old(lastPrice)
      ensures lastSpread == BookSpread(book).GetOr(old(lastSpread))
      ensures app.machine.current == OnOrderBook(old(app.machine.current))
      ensures app.State() == if BookMid(book) > 0.0
        then Recorded(old(app.State()), DataPoint(nowSecs * 1000, BookMid(book), BookVolume(book),
          app.machine.current, None, BookSpread(book).GetOr(0.0), Equity(old(app.State()))))
        else old(app.State())
    {
      var midPrice, volume, spread := 0.0, 0.0, 0.0;
      if book.bids != [] && book.asks != [] {
        var bestBid, bestAsk := book.bids[0].price, book.asks[0].price;
        midPrice := (bestBid + bestAsk) / 2.0;
        volume := (book.bids[0].qty + book.asks[0].qty) / 2.0;
        spread := bestAsk - bestBid;
        lastSpread := spread;
      }
      var spreadScore, imbalanceScore := SpreadScore(book), ImbalanceScore(book);
      StepOnBook(app, now);
      InferredScoresPositive(app.machine.current, spreadScore, imbalanceScore, 0.0);
      app.machine.UpdateInferredProbabilities(spreadScore, imbalanceScore, 0.0);
      if midPrice > 0.0 {
        app.PushDataPoint(midPrice, volume, None, spread, nowSecs);
      }
      opps := [];
    }
  }
}
