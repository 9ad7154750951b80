/** `BuyAndHold`: one Buy on the first trade, then nothing. */
module BuyHold {
  import opened Common
  import opened Signals
  import opened MarketData
  import opened StateMachine
  import opened Web

  /** The single purchase, made on trade `t`. */
  function InitialBuy(t: TradeEvent): Opportunity {
    Opportunity("buy_hold_" + NatToString(t.eventTime), Buy(t.symbol, Some(t.price), 0.1),
      1.0, 0.0, "Initial Buy and Hold purchase", t.eventTime)
  }

  class BuyAndHold {
    var hasBought: bool
    /** Opportunities emitted so far, over the object's whole life. */
    ghost var emitted: nat

    /** At most one opportunity is ever emitted, and exactly one once the flag is set. */
    ghost predicate Valid()
      reads this
    {
      emitted == if hasBought then 1 else 0
    }

    constructor ()
      ensures Valid() && !hasBought && emitted == 0
    {
      hasBought := false;
      emitted := 0;
    }

    /**
     * `process_trade`: the first call emits the Buy of 0.1 whatever the system
     * state, later calls emit nothing; each call records one data point.
     */
    method ProcessTrade(app: AppState, t: TradeEvent) returns (opps: seq<Opportunity>)
      requires Valid() && app.Valid()
      modifies this, app
      ensures Valid() && app.Valid()
      ensures hasBought
      ensures opps == if old(hasBought) then [] else [InitialBuy(t)]
      ensures emitted == old(emitted) + |opps| && emitted <= 1
      ensures app.State() == Recorded(old(app.State()),
        DataPoint(t.eventTime, t.price, t.qty, app.machine.current, if opps == [] then None else Some("Buy"), 0.0,
          Equity(old(app.State()))))
    {
      opps := [];
      if !hasBought {
        opps := opps + [InitialBuy(t)];
        hasBought := true;
        emitted := emitted + 1;
      }
      app.PushDataPointAt(t.price, t.qty, if opps == [] then None else Some("Buy"), 0.0, t.eventTime);
    }

    /** `process_aggr_trade`: never emits and changes nothing. */
    method ProcessAggrTrade(t: AggTradeEvent) returns (opps: seq<Opportunity>)
      ensures opps == []
    {
      opps := [];
    }

    /** `process_orderbook`: never emits and changes nothing. */
    method ProcessOrderbook(book: OrderBook) returns (opps: seq<Opportunity>)
      ensures opps == []
    {
      opps := [];
    }
  }
}
