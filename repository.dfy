/**
 * The `trades` table and the repository functions over it, with the table as
 * an in-memory sequence of rows. Integer columns are `BIGINT`, so `u64`
 * values are stored through an `as i64` cast and read back through `as u64`.
 * The outcome of executing a write statement is an input (`DbOutcome`).
 */
module Repository {
  import opened Common
  import opened MarketData

  /** One row of `trades`; a NULL price or quantity is `None`. */
  datatype Row = Row(
    eventTime: int,
    symbol: string,
    marketType: string,
    tradeId: int,
    price: Option<real>,
    quantity: Option<real>,
    buyerOrderId: int,
    sellerOrderId: int,
    isBuyerMaker: bool)

  /** What executing a write statement did: it succeeded or failed with a message. */
  datatype DbOutcome = Success | Failure(message: string)

  /** The unit `Result` of a repository write. */
  datatype DbResult = Ok | Err(message: string)

  /** A value bound to a `$n` placeholder. */
  datatype BindValue = Text(text: string) | BigInt(value: int)

  /** A time bound appended to the WHERE clause, with its placeholder number. */
  datatype Clause = AtLeast(placeholder: nat) | AtMost(placeholder: nat)

  predicate FitsI64(v: int) {
    -I64Bound <= v < I64Bound
  }

  /** Every integer column of the row is a valid `BIGINT`. */
  predicate RowFits(r: Row) {
    FitsI64(r.eventTime) && FitsI64(r.tradeId) && FitsI64(r.buyerOrderId) && FitsI64(r.sellerOrderId)
  }

  predicate TradeFits(e: TradeEvent) {
    e.eventTime < U64Modulus && e.tradeId < U64Modulus && e.buyerOrderId < U64Modulus && e.sellerOrderId < U64Modulus
  }

  predicate AggFits(e: AggTradeEvent) {
    e.eventTime < U64Modulus && e.aggregatedTradeId < U64Modulus
  }

  /** The row `save_trade` inserts. */
  function TradeRow(e: TradeEvent, marketType: string): (r: Row)
    requires TradeFits(e)
    ensures RowFits(r)
  {
    Row(U64AsI64(e.eventTime), e.symbol, marketType, U64AsI64(e.tradeId), Some(e.price), Some(e.qty),
      U64AsI64(e.buyerOrderId), U64AsI64(e.sellerOrderId), e.isBuyerMaker)
  }

  /** The row `save_aggr_trade` and the bulk insert write: the aggregate id as `trade_id`, dummy order ids. */
  function AggRow(e: AggTradeEvent, marketType: string): (r: Row)
    requires AggFits(e)
    ensures RowFits(r)
    ensures r.buyerOrderId == 0 && r.sellerOrderId == 0
  {
    Row(U64AsI64(e.eventTime), e.symbol, marketType, U64AsI64(e.aggregatedTradeId), Some(e.price), Some(e.qty),
      0, 0, e.isBuyerMaker)
  }

  /** The event a fetched row becomes: a "trade" whose order time is its event time. */
  function ToTradeEvent(r: Row): (e: TradeEvent)
    requires RowFits(r)
    ensures e.eventType == "trade" && e.tradeOrderTime == e.eventTime
    ensures e.price == r.price.GetOr(0.0) && e.qty == r.quantity.GetOr(0.0)
  {
    TradeEvent("trade", I64AsU64(r.eventTime), r.symbol, I64AsU64(r.tradeId), r.price.GetOr(0.0),
      r.quantity.GetOr(0.0), I64AsU64(r.buyerOrderId), I64AsU64(r.sellerOrderId), I64AsU64(r.eventTime),
      r.isBuyerMaker)
  }

  /**
   * A trade saved and read back is the same trade, except that it is labelled
   * "trade" and its order time becomes its event time.
   */
  lemma TradeRoundTrip(e: TradeEvent, marketType: string)
    requires TradeFits(e)
    ensures ToTradeEvent(TradeRow(e, marketType)) == e.(eventType := "trade", tradeOrderTime := e.eventTime)
  {
    CastRoundTrip(e.eventTime, 0);
    CastRoundTrip(e.tradeId, 0);
    CastRoundTrip(e.buyerOrderId, 0);
    CastRoundTrip(e.sellerOrderId, 0);
  }

  /**
   * An aggregated trade saved and read back keeps its time, symbol, price,
   * quantity and side, carries its aggregate id as the trade id, and has 0 for
   * both order ids.
   */
  lemma AggRoundTrip(e: AggTradeEvent, marketType: string)
    requires AggFits(e)
    ensures ToTradeEvent(AggRow(e, marketType))
      == TradeEvent("trade", e.eventTime, e.symbol, e.aggregatedTradeId, e.price, e.qty, 0, 0, e.eventTime, e.isBuyerMaker)
  {
    CastRoundTrip(e.eventTime, 0);
    CastRoundTrip(e.aggregatedTradeId, 0);
  }

  /** Whether a failed bulk insert only hit rows that already exist. */
  predicate IsDuplicateError(message: string) {
    Contains(message, "duplicate key") || Contains(message, "unique constraint")
  }

  /** The fixed part of the range query, selecting on `$1` and `$2`. */
  const SelectBase: string :=
    "SELECT event_time, symbol, trade_id, price::TEXT, quantity::TEXT, buyer_order_id, seller_order_id, is_buyer_maker FROM trades WHERE symbol = $1 AND market_type = $2"

  const OrderByTime: string := " ORDER BY event_time ASC"

  function RenderClause(c: Clause): string {
    match c
    case AtLeast(k) => " AND event_time >= $" + NatToString(k)
    case AtMost(k) => " AND event_time <= $" + NatToString(k)
  }

  /** The query text, held as the pieces appended to it in order. */
  function QueryText(pieces: seq<string>): string {
    if pieces == [] then "" else QueryText(pieces[..|pieces| - 1]) + pieces[|pieces| - 1]
  }

  /** The placeholder numbers of the query, in the order they appear in its text. */
  function Placeholders(cs: seq<Clause>): seq<nat> {
    [1, 2] + seq(|cs|, i requires 0 <= i < |cs| => cs[i].placeholder)
  }

  /** Whether a row satisfies the WHERE clause under the given binds, as the database evaluates it. */
  predicate Satisfies(r: Row, binds: seq<BindValue>, cs: seq<Clause>) {
    && |binds| >= 2
    && binds[0] == Text(r.symbol) && binds[1] == Text(r.marketType)
    && forall i :: 0 <= i < |cs| ==> ClauseHolds(r, binds, cs[i])
  }

  /** One time bound, with its placeholder resolved against the binds. */
  predicate ClauseHolds(r: Row, binds: seq<BindValue>, c: Clause) {
    && 1 <= c.placeholder <= |binds|
    && binds[c.placeholder - 1].BigInt?
    && match c
      case AtLeast(k) => r.eventTime >= binds[k - 1].value
      case AtMost(k) => r.eventTime <= binds[k - 1].value
  }

  /** The rows the query selects, in table order. */
  function Selected(rows: seq<Row>, binds: seq<BindValue>, cs: seq<Clause>): (sel: seq<Row>)
    ensures forall i :: 0 <= i < |sel| ==> Satisfies(sel[i], binds, cs)
    ensures multiset(sel) <= multiset(rows)
  {
    if rows == [] then []
    else
      var rest := Selected(rows[..|rows| - 1], binds, cs);
      var last := rows[|rows| - 1];
      assert rows == rows[..|rows| - 1] + [last];
      if Satisfies(last, binds, cs) then rest + [last] else rest
  }

  /** The rendered text ends with the ordering clause when its last piece is that clause. */
  lemma QueryEndsWithOrder(pieces: seq<string>)
    requires pieces != [] && pieces[|pieces| - 1] == OrderByTime
    ensures |QueryText(pieces)| >= |OrderByTime|
    ensures QueryText(pieces)[|QueryText(pieces)| - |OrderByTime|..] == OrderByTime
  {
  }

  /** Rows that are a sub-multiset of a table of valid rows are valid. */
  lemma SubmultisetFits(rows: seq<Row>, sub: seq<Row>)
    requires forall i :: 0 <= i < |rows| ==> RowFits(rows[i])
    requires multiset(sub) <= multiset(rows)
    ensures forall i :: 0 <= i < |sub| ==> RowFits(sub[i])
  {
    forall i | 0 <= i < |sub|
      ensures RowFits(sub[i])
    {
      assert sub[i] in multiset(sub);
      assert sub[i] in multiset(rows);
    }
  }

  /** The caller's intent: the symbol, the market type and the optional inclusive bounds, as stored. */
  predicate InRange(r: Row, symbol: string, marketType: string, start: Option<nat>, end: Option<nat>)
    requires start.Some? ==> start.value < U64Modulus
    requires end.Some? ==> end.value < U64Modulus
  {
    && r.symbol == symbol && r.marketType == marketType
    && (start.Some? ==> r.eventTime >= U64AsI64(start.value))
    && (end.Some? ==> r.eventTime <= U64AsI64(end.value))
  }

  function FilterInRange(rows: seq<Row>, symbol: string, marketType: string, start: Option<nat>, end: Option<nat>): seq<Row>
    requires start.Some? ==> start.value < U64Modulus
    requires end.Some? ==> end.value < U64Modulus
  {
    if rows == [] then []
    else
      var rest := FilterInRange(rows[..|rows| - 1], symbol, marketType, start, end);
      if InRange(rows[|rows| - 1], symbol, marketType, start, end) then rest + [rows[|rows| - 1]] else rest
  }

  /**
   * What the query builder produces: symbol on `$1`, market type on `$2`, the
   * start bound on `$3`, the end bound on `$4` after a start bound and on `$3`
   * without one; the binds in that order.
   */
  ghost predicate BuiltFor(cs: seq<Clause>, binds: seq<BindValue>, symbol: string, marketType: string,
                           start: Option<nat>, end: Option<nat>)
    requires start.Some? ==> start.value < U64Modulus
    requires end.Some? ==> end.value < U64Modulus
  {
    && cs == (if start.Some? then [AtLeast(3)] else []) + (if end.Some? then [AtMost(if start.Some? then 4 else 3)] else [])
    && binds == [Text(symbol), Text(marketType)]
      + (if start.Some? then [BigInt(U64AsI64(start.value))] else [])
      + (if end.Some? then [BigInt(U64AsI64(end.value))] else [])
  }

  /** With the built clauses and binds, the database selects a row iff it is in the requested range. */
  lemma BuiltQueryMeaning(r: Row, cs: seq<Clause>, binds: seq<BindValue>, symbol: string, marketType: string,
                          start: Option<nat>, end: Option<nat>)
    requires start.Some? ==> start.value < U64Modulus
    requires end.Some? ==> end.value < U64Modulus
    requires BuiltFor(cs, binds, symbol, marketType, start, end)
    ensures Satisfies(r, binds, cs) <==> InRange(r, symbol, marketType, start, end)
  {
    if start.Some? && end.Some? {
      assert cs == [AtLeast(3), AtMost(4)];
      assert binds[2] == BigInt(U64AsI64(start.value)) && binds[3] == BigInt(U64AsI64(end.value));
      assert Satisfies(r, binds, cs) <==>
        binds[0] == Text(r.symbol) && binds[1] == Text(r.marketType)
        && ClauseHolds(r, binds, cs[0]) && ClauseHolds(r, binds, cs[1]);
    } else if start.Some? {
      assert cs == [AtLeast(3)];
      assert binds[2] == BigInt(U64AsI64(start.value));
    } else if end.Some? {
      assert cs == [AtMost(3)];
      assert binds[2] == BigInt(U64AsI64(end.value));
    } else {
      assert cs == [];
    }
  }

  /** With the built clauses and binds, the query selects exactly the rows in range, in table order. */
  lemma {:induction false} BuiltQuerySelects(rows: seq<Row>, cs: seq<Clause>, binds: seq<BindValue>, symbol: string,
                                             marketType: string, start: Option<nat>, end: Option<nat>)
    requires start.Some? ==> start.value < U64Modulus
    requires end.Some? ==> end.value < U64Modulus
    requires BuiltFor(cs, binds, symbol, marketType, start, end)
    ensures Selected(rows, binds, cs) == FilterInRange(rows, symbol, marketType, start, end)
  {
    if rows != [] {
      BuiltQuerySelects(rows[..|rows| - 1], cs, binds, symbol, marketType, start, end);
      BuiltQueryMeaning(rows[|rows| - 1], cs, binds, symbol, marketType, start, end);
    }
  }

  ghost predicate SortedByTime(rs: seq<Row>) {
    forall i, j :: 0 <= i < j < |rs| ==> rs[i].eventTime <= rs[j].eventTime
  }

  /** Whether a row belongs to the given symbol and market type. */
  predicate OfMarket(r: Row, symbol: string, marketType: string) {
    r.symbol == symbol && r.marketType == marketType
  }

  /**
   * The query text and binds of `get_historical_trades_range`, built by
   * appending a clause per present bound and numbering placeholders from 3.
   */
  method BuildRangeQuery(symbol: string, marketType: string, start: Option<nat>, end: Option<nat>)
    returns (sql: seq<string>, cs: seq<Clause>, binds: seq<BindValue>)
    requires start.Some? ==> start.value < U64Modulus
    requires end.Some? ==> end.value < U64Modulus
    ensures BuiltFor(cs, binds, symbol, marketType, start, end)
    ensures sql == [SelectBase] + seq(|cs|, i requires 0 <= i < |cs| => RenderClause(cs[i])) + [OrderByTime]
    ensures Placeholders(cs) == seq(|binds|, i => i + 1)
  {
    sql := [SelectBase];
    cs := [];
    binds := [Text(symbol), Text(marketType)];
    var bindIdx := 3;
    if start.Some? {
      sql := sql + [RenderClause(AtLeast(bindIdx))];
      cs := cs + [AtLeast(bindIdx)];
      binds := binds + [BigInt(U64AsI64(start.value))];
      bindIdx := bindIdx + 1;
    }
    if end.Some? {
      sql := sql + [RenderClause(AtMost(bindIdx))];
      cs := cs + [AtMost(bindIdx)];
      binds := binds + [BigInt(U64AsI64(end.value))];
    }
    sql := sql + [OrderByTime];
    assert |cs| <= 2 && forall i :: 0 <= i < |cs| ==> cs[i].placeholder == i + 3;
    assert |binds| == |cs| + 2;
  }

  /** The in-memory `trades` table. */
  class TradeTable {
    var rows: seq<Row>

    ghost predicate Valid()
      reads this
    {
      forall i :: 0 <= i < |rows| ==> RowFits(rows[i])
    }

    constructor()
      ensures Valid() && rows == []
    {
      rows := [];
    }

    /** `save_trade`: one row on success; the error is passed back and nothing is written on failure. */
    method SaveTrade(e: TradeEvent, marketType: string, outcome: DbOutcome) returns (result: DbResult)
      requires Valid() && TradeFits(e)
      modifies this
      ensures Valid()
      ensures outcome.Success? ==> result == Ok && rows == old(rows) + [TradeRow(e, marketType)]
      ensures outcome.Failure? ==> result == Err(outcome.message) && rows == old(rows)
    {
      if outcome.Failure? {
        return Err(outcome.message);
      }
      rows := rows + [TradeRow(e, marketType)];
      result := Ok;
    }

    /** `save_aggr_trade`: the aggregated trade's row on success, nothing on failure. */
    method SaveAggrTrade(e: AggTradeEvent, marketType: string, outcome: DbOutcome) returns (result: DbResult)
      requires Valid() && AggFits(e)
      modifies this
      ensures Valid()
      ensures outcome.Success? ==> result == Ok && rows == old(rows) + [AggRow(e, marketType)]
      ensures outcome.Failure? ==> result == Err(outcome.message) && rows == old(rows)
    {
      if outcome.Failure? {
        return Err(outcome.message);
      }
      rows := rows + [AggRow(e, marketType)];
      result := Ok;
    }

    /**
     * `save_aggr_trades_bulk`: an empty batch is Ok without touching the
     * table; otherwise one multi-row insert that either writes every row or
     * none, where a duplicate-key or unique-constraint failure still counts as
     * Ok and any other failure is passed back.
     */
    method SaveAggrTradesBulk(events: seq<AggTradeEvent>, marketType: string, outcome: DbOutcome)
      returns (result: DbResult)
      requires Valid() && forall i :: 0 <= i < |events| ==> AggFits(events[i])
      modifies this
      ensures Valid()
      ensures events == [] ==> result == Ok && rows == old(rows)
      ensures events != [] && outcome.Success? ==>
        result == Ok && rows == old(rows) + seq(|events|, i requires 0 <= i < |events| => AggRow(events[i], marketType))
      ensures events != [] && outcome.Failure? ==> rows == old(rows)
      ensures events != [] && outcome.Failure? ==> (result == Ok <==> IsDuplicateError(outcome.message))
      ensures events != [] && outcome.Failure? && result != Ok ==> result == Err(outcome.message)
    {
      if events == [] {
        return Ok;
      }
      var values: seq<Row> := [];
      for i := 0 to |events|
        invariant values == seq(i, k requires 0 <= k < i => AggRow(events[k], marketType))
      {
        values := values + [AggRow(events[i], marketType)];
      }
      match outcome
      case Success =>
        rows := rows + values;
        result := Ok;
      case Failure(message) =>
        if Contains(message, "duplicate key") || Contains(message, "unique constraint") {
          result := Ok;
        } else {
          result := Err(message);
        }
    }

    /**
     * Runs a range query against the table: the selected rows, ordered by
     * event time ascending.
     */
    method RunQuery(binds: seq<BindValue>, cs: seq<Clause>) returns (result: seq<Row>)
      ensures SortedByTime(result)
      ensures multiset(result) == multiset(Selected(rows, binds, cs))
    {
      result := [];
      for i := 0 to |rows|
        invariant SortedByTime(result)
        invariant multiset(result) == multiset(Selected(rows[..i], binds, cs))
      {
        SelectedExtend(rows, i, binds, cs);
        ghost var before := Selected(rows[..i], binds, cs);
        if Satisfies(rows[i], binds, cs) {
          result := InsertByTime(result, rows[i]);
          assert multiset(before + [rows[i]]) == multiset(before) + multiset{rows[i]};
        } else {
          assert Selected(rows[..i + 1], binds, cs) == before;
        }
      }
      assert rows[..|rows|] == rows;
    }

    /**
     * `get_historical_trades_range`: the trades of one symbol and market type
     * within the optional inclusive bounds, ascending by stored event time.
     */
    method GetHistoricalTradesRange(symbol: string, marketType: string, start: Option<nat>, end: Option<nat>)
      returns (trades: seq<TradeEvent>, ghost fetched: seq<Row>)
      requires Valid()
      requires start.Some? ==> start.value < U64Modulus
      requires end.Some? ==> end.value < U64Modulus
      ensures SortedByTime(fetched)
      ensures multiset(fetched) == multiset(FilterInRange(rows, symbol, marketType, start, end))
      ensures |trades| == |fetched|
      ensures forall i :: 0 <= i < |fetched| ==> RowFits(fetched[i]) && trades[i] == ToTradeEvent(fetched[i])
    {
      var sql, cs, binds := BuildRangeQuery(symbol, marketType, start, end);
      var result := RunQuery(binds, cs);
      BuiltQuerySelects(rows, cs, binds, symbol, marketType, start, end);
      SubmultisetFits(rows, result);
      fetched := result;
      trades := ToTradeEvents(result);
    }

    /** `get_historical_trades`: the Spot trades of a symbol, unbounded. */
    method GetHistoricalTrades(symbol: string) returns (trades: seq<TradeEvent>, ghost fetched: seq<Row>)
      requires Valid()
      ensures SortedByTime(fetched)
      ensures multiset(fetched) == multiset(FilterInRange(rows, symbol, "SPOT", None, None))
      ensures |trades| == |fetched|
      ensures forall i :: 0 <= i < |fetched| ==> RowFits(fetched[i]) && trades[i] == ToTradeEvent(fetched[i])
    {
      trades, fetched := GetHistoricalTradesRange(symbol, "SPOT", None, None);
    }

    /**
     * `get_data_range`: the smallest and largest stored event times of one
     * symbol and market type, cast back to `u64`; both None without rows.
     */
    method GetDataRange(symbol: string, marketType: string) returns (min: Option<nat>, max: Option<nat>)
      requires Valid()
      ensures min.None? <==> forall i :: 0 <= i < |rows| ==> !OfMarket(rows[i], symbol, marketType)
      ensures max.None? <==> min.None?
      ensures min.Some? ==> min.value < U64Modulus && max.value < U64Modulus
      ensures min.Some? ==>
        && (exists i :: 0 <= i < |rows| && OfMarket(rows[i], symbol, marketType) && rows[i].eventTime == U64AsI64(min.value))
        && (forall i :: 0 <= i < |rows| && OfMarket(rows[i], symbol, marketType) ==> U64AsI64(min.value) <= rows[i].eventTime)
      ensures max.Some? ==>
        && (exists i :: 0 <= i < |rows| && OfMarket(rows[i], symbol, marketType) && rows[i].eventTime == U64AsI64(max.value))
        && (forall i :: 0 <= i < |rows| && OfMarket(rows[i], symbol, marketType) ==> rows[i].eventTime <= U64AsI64(max.value))
    {
      var lo: Option<int> := None;
      var hi: Option<int> := None;
      for i := 0 to |rows|
        invariant lo.None? <==> forall k :: 0 <= k < i ==> !OfMarket(rows[k], symbol, marketType)
        invariant hi.None? <==> lo.None?
        invariant lo.Some? ==> FitsI64(lo.value) && FitsI64(hi.value)
        invariant lo.Some? ==>
          && (exists k :: 0 <= k < i && OfMarket(rows[k], symbol, marketType) && rows[k].eventTime == lo.value)
          && (forall k :: 0 <= k < i && OfMarket(rows[k], symbol, marketType) ==> lo.value <= rows[k].eventTime)
          && (exists k :: 0 <= k < i && OfMarket(rows[k], symbol, marketType) && rows[k].eventTime == hi.value)
          && (forall k :: 0 <= k < i && OfMarket(rows[k], symbol, marketType) ==> rows[k].eventTime <= hi.value)
      {
        if OfMarket(rows[i], symbol, marketType) {
          var t := rows[i].eventTime;
          if lo.None? || t < lo.value {
            lo := Some(t);
          }
          if hi.None? || t > hi.value {
            hi := Some(t);
          }
        }
      }
      if lo.Some? {
        CastRoundTrip(0, lo.value);
        CastRoundTrip(0, hi.value);
        min, max := Some(I64AsU64(lo.value)), Some(I64AsU64(hi.value));
      } else {
        min, max := None, None;
      }
    }
  }

  /** The row-to-event mapping of a query's result, row by row. */
  method ToTradeEvents(rs: seq<Row>) returns (trades: seq<TradeEvent>)
    requires forall i :: 0 <= i < |rs| ==> RowFits(rs[i])
    ensures |trades| == |rs|
    ensures forall i :: 0 <= i < |rs| ==> trades[i] == ToTradeEvent(rs[i])
  {
    trades := [];
    for i := 0 to |rs|
      invariant |trades| == i
      invariant forall k :: 0 <= k < i ==> trades[k] == ToTradeEvent(rs[k])
    {
      trades := trades + [ToTradeEvent(rs[i])];
    }
  }

  /** Selecting from one more row adds that row when it satisfies the clauses. */
  lemma SelectedExtend(rows: seq<Row>, i: nat, binds: seq<BindValue>, cs: seq<Clause>)
    requires i < |rows|
    ensures Selected(rows[..i + 1], binds, cs)
      == Selected(rows[..i], binds, cs) + (if Satisfies(rows[i], binds, cs) then [rows[i]] else [])
  {
    assert rows[..i + 1][..i] == rows[..i];
  }

  /** Inserts a row after every row with an earlier or equal time. */
  method InsertByTime(sorted: seq<Row>, r: Row) returns (result: seq<Row>)
    requires SortedByTime(sorted)
    ensures SortedByTime(result)
    ensures multiset(result) == multiset(sorted) + multiset{r}
  {
    var j := 0;
    while j < |sorted| && sorted[j].eventTime <= r.eventTime
      invariant j <= |sorted|
      invariant forall k :: 0 <= k < j ==> sorted[k].eventTime <= r.eventTime
    {
      j := j + 1;
    }
    result := sorted[..j] + [r] + sorted[j..];
    assert sorted == sorted[..j] + sorted[j..];
  }
}
