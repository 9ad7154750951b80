/**
 * The market events the bot consumes. Prices and quantities arrive from the
 * exchange as decimal text; here they are the already-parsed values, with
 * text that does not parse read as 0, as every consumer does.
 */
module MarketData {
  import opened Common

  /** A single trade from the `@trade` stream or the trades table. */
  datatype TradeEvent = TradeEvent(
    eventType: string,
    eventTime: nat,
    symbol: string,
    tradeId: nat,
    price: real,
    qty: real,
    buyerOrderId: nat,
    sellerOrderId: nat,
    tradeOrderTime: nat,
    isBuyerMaker: bool)

  /** An aggregated trade from the `@aggTrade` stream or the historical API. */
  datatype AggTradeEvent = AggTradeEvent(
    eventType: string,
    eventTime: nat,
    symbol: string,
    aggregatedTradeId: nat,
    price: real,
    qty: real,
    firstBreakTradeId: nat,
    lastBreakTradeId: nat,
    tradeOrderTime: nat,
    isBuyerMaker: bool)

  /** One price level of an order book, best level first. */
  datatype Level = Level(price: real, qty: real)

  datatype OrderBook = OrderBook(lastUpdateId: nat, bids: seq<Level>, asks: seq<Level>)

  /** The events the market-data channel carries. */
  datatype MarketEvent =
    | Trade(trade: TradeEvent)
    | AggrTrade(agg: AggTradeEvent)
    | Book(book: OrderBook)
    | DepthUpdate(depth: OrderBook)

  /**
   * The best-ask minus best-bid spread that several strategies remember on an
   * order book, when both sides have a level.
   */
  function BookSpread(book: OrderBook): (spread: Option<real>)
    ensures spread.Some? <==> book.bids != [] && book.asks != []
    ensures spread.Some? ==> spread.value == book.asks[0].price - book.bids[0].price
  {
    if book.bids != [] && book.asks != [] then Some(book.asks[0].price - book.bids[0].price) else None
  }
}
