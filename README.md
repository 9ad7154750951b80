# six-trading: a verified model of the trading core

six-trading is a Binance trading bot. Market events arrive from a websocket or
from the trades table. They pass a data-quality filter, drive a five-state
system lifecycle (Booting, Accumulating, Analyzing, Trading, Cooldown) and feed
one of many trading strategies. Each strategy turns trades into scored
opportunities. A risk manager re-scores the opportunities and picks the best
one, and a simulated executor books it against a USDT/BTC account. A web
dashboard keeps bounded histories of data points and portfolio snapshots. It
also runs backtests over stored trades, downloading the missing history in
one-hour chunks first.

This Dafny project models that core and proves properties of it:

- **StateMachine** (`state_machine.dfy`): the machine is a class.
  - It owns a counter matrix (`array2<nat>`) and an inferred-probability matrix (`array2<real>`).
  - It keeps the invariant that the counters sum to the number of effective transitions.
  - Both probability tables are proved to have rows that are distributions.
  - Lemmas follow a whole run of trades through the lifecycle protocol every strategy uses (**Lifecycle**, `lifecycle.dfy`).
- **Filter** (`filter.dfy`): the stateful duplicate, out-of-order and outlier filter, with its counters and quality score.
- **Downloader** (`downloader.dfy`): the gap decisions of `ensure_data` and `ensure_data_range`, and the one-hour chunk loop.
- **Repository** (`repository.dfy`):
  - The `trades` table is an in-memory sequence of rows.
  - The save operations write the columns the source binds, with the `u64`/`i64` casts.
  - The range query's text builder and `$n` placeholders are modelled.
  - The query's result is exactly the matching rows, in event-time order.
- **Web** and **Backtest** (`web.dfy`, `backtest.dfy`):
  - The dashboard state is a class with bounded histories and 1-in-N sampling.
  - The request parsers are modelled.
  - So is the integer and PnL bookkeeping of the backtest loop.
- **Execution** (`execution.dfy`): the simulation branch of the executor.
  - A class holds a balance map and a list of positions, one per symbol.
  - It is proved against a pure account specification.
- **Factory** and **Risk** (`factory.dfy`, `risk.dfy`):
  - The strategy registry is proved to round-trip every name through `name()`.
  - Risk scoring and best-trade selection are modelled.
- The counter- and position-driven strategies, each a class:
  - **Logger** (the paper trader), **Dca**, **BuyHold**, **Martingale**, **Grid**.
  - **Trend**, **Breakout**, **Swing** and **Scalper**.
  - Each method is proved against a pure `Decide` function.
  - Lemmas state what `Decide` promises.

Conventions:

- Prices and quantities are exact `real`s. An `f64` quotient is modelled by
  `Common.Quotient`: a zero divisor gives an infinity or NaN, which compares
  false both ways.
- Event times, ids and counters are `nat`. Where the source's `u64` arithmetic
  can wrap or its casts can change a value, this is written out with
  `Common.WrappingSub`, `Common.U64AsI64` and `Common.I64AsU64`.
- Clocks are parameters (`now`, `nowSecs`). Database failures are an outcome
  parameter.

A consequence worth knowing: in `VolatilityBreakout` the current price is pushed
into the window before the range is taken. The breakout entry can therefore
never fire, and a strategy that starts flat never emits anything
(`Breakout.NoBreakout`, `Breakout.VolatilityBreakout.HandleTrade`).

## Model

| member | source | states |
|---|---|---|
| Backtest.ProgressInterval | src/web/mod.rs:631 | the progress interval is `max(n / 10, 1)`: at least 1 and at least `n / 10`, and equal to one of them |
| Backtest.SampleRate | src/web/mod.rs:632 | the sample rate is `max(n / 2000, 1)`: at least 1 and at least `n / 2000`, and equal to one of them |
| Backtest.ApplyFillProps | src/web/mod.rs:665-695 | one executed opportunity adds one trade, a win only for positive PnL and a loss only for negative PnL; the peak never decreases and covers the running PnL; the maximum drawdown never decreases and covers the current drawdown; wins + losses <= trades is kept |
| Backtest.ApplyFillsProps | src/web/mod.rs:665-696 | over all opportunities of one trade the trade counter grows by their number, the peak and the maximum drawdown never decrease, and wins + losses <= trades is kept |
| Backtest.TallyUpToProps | src/web/mod.rs:640-697 | over a whole run wins + losses never exceed the trade counter, which counts exactly the opportunities of the visited trades; peak and maximum drawdown are monotone along the run |
| Backtest.FastModeSkips | src/web/mod.rs:633-643 | in fast mode a trade whose index is not a multiple of 10 contributes nothing to the counters |
| Backtest.PrepareRun | src/web/mod.rs:610-616 | the setup clears the dashboard, allows 10 000 points, forces the machine to Trading and marks trading on; nothing else changes |
| Backtest.BookFill | src/web/mod.rs:665-695 | booking one opportunity changes the app's trade counters and realized PnL and the run's locals exactly as `ApplyFill` does, and nothing else in the app |
| Backtest.RecordedUpToProps | src/web/mod.rs:640-658 | the strategy's recording during a run moves only the history and the point counter; the counter grows by exactly one per visited trade and the history stays within its capacity |
| Backtest.VisitedUpToCount | src/web/mod.rs:640-643 | a run visits every trade in normal mode and one trade in ten, rounded up, in fast mode |
| Backtest.RecordTrade | src/web/mod.rs:658 | the strategy's call on a visited trade records one point at the trade's price, stamped with the machine state and the equity of that moment, and changes nothing but the history and the point counter |
| Backtest.BookFills | src/web/mod.rs:665-696 | the opportunities of one trade are booked in order, exactly as `ApplyFills` folds them, and nothing but the counters and the realized PnL changes in the app |
| Backtest.VisitTrade | src/web/mod.rs:645-696 | one visited trade first records the strategy's point and then books its opportunities: the tally and the recorded history both advance by exactly one step of `TallyUpTo` and `RecordedUpTo` |
| Backtest.RunLoop | src/web/mod.rs:631-697 | the loop sets the sample rate, ends with the tally of all visited trades (every tenth in fast mode), sends progress exactly at the visited non-zero multiples of the interval, and leaves the dashboard with one recorded point per visited trade (each carrying the equity before that trade's fills) and nothing else changed but the counters |
| BuyHold.BuyAndHold.constructor | src/strategy/buy_hold.rs:11-15 | a new strategy has not bought and has emitted nothing |
| BuyHold.BuyAndHold.ProcessTrade | src/strategy/buy_hold.rs:28-51 | the first call emits exactly the Buy of 0.1 whatever the system state, later calls emit nothing, so at most one opportunity is ever emitted; one data point labelled "Buy" or unlabelled is recorded |
| BuyHold.BuyAndHold.ProcessAggrTrade | src/strategy/buy_hold.rs:53-55 | aggregated trades never emit and change nothing |
| BuyHold.BuyAndHold.ProcessOrderbook | src/strategy/buy_hold.rs:57-59 | order books never emit and change nothing |
| Dca.NextBuyIn | src/strategy/dca_strategy.rs:33 | "Next Buy In" lies in [1, 50], is the least positive number of further trades reaching a multiple of 50, and is 50 exactly on a multiple |
| Dca.DcaStrategy.constructor | src/strategy/dca_strategy.rs:15-22 | a new strategy has counted no trades and remembers a zero spread |
| Dca.DcaStrategy.Features | src/strategy/dca_strategy.rs:29-35 | three features, the second the trade count |
| Dca.DcaStrategy.HandleTrade | src/strategy/dca_strategy.rs:58-96 | the trade counter grows by one; the lifecycle steps as for every strategy; at most one opportunity, the Buy of 0.0001, emitted exactly when Trading on a multiple of 50, never a Sell; one data point recorded |
| Dca.DcaStrategy.ProcessOrderbook | src/strategy/dca_strategy.rs:49-54 | only the spread changes, and only when both sides have a level; nothing is emitted |
| Dca.DivModUnique | src/strategy/dca_strategy.rs:33 | the remainder by 50 is determined by any decomposition `x == q * 50 + r` with `0 <= r < 50` (used for "Next Buy In") |
| Downloader.AsStr | src/market_data/downloader.rs:15-21 | Spot is "SPOT" and Futures is "FUTURES" |
| Downloader.AsStrInjective | src/market_data/downloader.rs:15-21 | the two market strings are distinct: equal strings iff equal market types |
| Downloader.ChunkEndAsWritten | src/market_data/downloader.rs:130 | the as-written chunk end never passes the range end, and equals `min(start + 1h, end)` whenever the addition does not overflow `u64` |
| Downloader.ChunkEndWrapsBackwards | src/market_data/downloader.rs:129-132 | near the top of the `u64` range the as-written chunk ends at 3 599 000, before its own start |
| Downloader.PlanChunks | src/market_data/downloader.rs:127-133 | no chunks iff `start >= end`; otherwise the first chunk starts at `start`, the last ends at `end`, every chunk is non-empty and at most one hour wide, consecutive chunks touch, and all but the last are exactly one hour |
| Downloader.EnsureDataRange | src/market_data/downloader.rs:81-109 | at most two windows are fetched |
| Downloader.EnsureDataRangeGaps | src/market_data/downloader.rs:81-109 | with data stored, nothing is fetched iff the stored min is at most `start` and the stored max at least `end`; otherwise exactly the before-gap `[start, min)` and then the after-gap `[max, end)` when they are non-empty, neither overlapping the stored span |
| Downloader.EnsureDataRangeEmptyTable | src/market_data/downloader.rs:96-109 | with an empty table the whole range `[start, end)` is requested twice, and nothing for an empty range |
| Downloader.TargetStart | src/market_data/downloader.rs:38 | the target start is a `u64` and is `now - hours * 3 600 000` when that does not underflow |
| Downloader.EnsureDataDecision | src/market_data/downloader.rs:38-61 | `ensure_data` fetches nothing iff the oldest stored trade is at or before the target start; a fetch starts at the target and ends at the oldest stored trade (after the target) or, for an empty table, at `now`, spanning exactly `hours` hours |
| Execution.FindPosition | src/execution/mod.rs:124 | the index found holds the symbol and no earlier position does; none iff no position holds it |
| Execution.Rebalance | src/execution/mod.rs:120-122 | the balance map with the new USDT and BTC amounts and every other asset kept |
| Execution.BuyCost | src/execution/mod.rs:117-118 | a Buy costs `qty * price * 1.001` |
| Execution.SellProceeds | src/execution/mod.rs:153-155 | a Sell credits `qty * price * 0.999` |
| Execution.FindUnique | src/execution/mod.rs:124 | with one position per symbol, a position holding the symbol is the one found |
| Execution.GrownPositionsProps | src/execution/mod.rs:124-137 | a Buy grows the symbol's holding by the quantity, leaves every other holding alone, and keeps one position per symbol with positive amounts |
| Execution.ShrunkPositionsProps | src/execution/mod.rs:157-165 | a Sell lowers the holding by the quantity, to nothing once at most 1e-6 would be left, keeping one position per symbol with positive amounts |
| Execution.BuyWellFormed | src/execution/mod.rs:106-139 | a Buy keeps the account well formed (USDT and BTC present, BTC non-negative, one position per symbol) |
| Execution.SellWellFormed | src/execution/mod.rs:140-168 | a Sell keeps the account well formed |
| Execution.ApplyWellFormed | src/execution/mod.rs:103-171 | every execution keeps the account well formed |
| Execution.BuySkipped | src/execution/mod.rs:112-120 | a Buy with a missing or zero price, or with USDT below the cost, changes nothing and realizes 0 |
| Execution.BuyExecuted | src/execution/mod.rs:117-138 | a covered Buy lowers USDT by exactly the cost, raises BTC by the quantity, grows the symbol's holding by the quantity, leaves other holdings alone and realizes 0 |
| Execution.SellShort | src/execution/mod.rs:145-146 | a Sell with less BTC than the quantity changes nothing and realizes 0 |
| Execution.SellWithoutPrice | src/execution/mod.rs:146-151 | a Sell with enough BTC but a missing or zero price only deducts the BTC and realizes 0 |
| Execution.SellExecuted | src/execution/mod.rs:146-166 | a priced Sell deducts the BTC and credits `revenue * 0.999` USDT; without a position nothing else changes and the PnL is 0; with one the PnL is `(revenue - fee) - entry * qty` and the holding drops by the quantity, to nothing at dust |
| Execution.Simulator.constructor | src/execution/mod.rs:76-85 | a new simulator holds 10 000 USDT, 0 BTC and no positions |
| Execution.Simulator.Find | src/execution/mod.rs:124 | the linear search (also the one at line 157) finds exactly the position `FindPosition` names |
| Execution.Simulator.Execute | src/execution/mod.rs:103-171 | the account and realized PnL after the call are those of the `Apply` specification, and the account stays well formed |
| Execution.Simulator.BuyInPlace | src/execution/mod.rs:106-139 | the in-place Buy branch produces the account `ApplyBuy` specifies |
| Execution.Simulator.SellInPlace | src/execution/mod.rs:140-168 | the in-place Sell branch produces the account and PnL `ApplySell` specifies |
| Execution.Simulator.GetBalances | src/execution/mod.rs:298-302 | every asset of the balance map appears exactly once, with its amount, and nothing else appears |
| Execution.Simulator.GetPositions | src/execution/mod.rs:318-321 | a copy of the position list, one position per symbol |
| Execution.Simulator.GetTradeStats | src/execution/mod.rs:327-331 | the simulator reports the all-zero default statistics record |
| Factory.AvailableStrategies | src/strategy/factory.rs:47-76 | the dashboard is offered 26 names |
| Factory.CreateFromName | src/strategy/factory.rs:16-42 | every strategy is built from the name it reports through `name()` |
| Factory.CreateFromNamesOneToThirteen | src/strategy/factory.rs:17-29 | the first thirteen arms of the match build the strategy whose name they test |
| Factory.CreateFromNamesFourteenToNineteen | src/strategy/factory.rs:30-35 | arms fourteen to nineteen build the strategy whose name they test |
| Factory.CreateFromNamesTwentyToTwentyThree | src/strategy/factory.rs:36-39 | arms twenty to twenty-three build the strategy whose name they test |
| Factory.CreateFromNamesTwentyFourToTwentySix | src/strategy/factory.rs:40-42 | the last three arms build the strategy whose name they test |
| Factory.NameOfCreated | src/strategy/factory.rs:15-44 | a built strategy's `name()` is the name it was built from (the comparison in `src/main.rs:156` relies on this) |
| Factory.AllKinds | src/strategy/factory.rs:48-75 | the 26 strategies, in the order the dashboard list names them |
| Factory.AvailableNamesKinds | src/strategy/factory.rs:48-75 | entry `i` of the dashboard list is the name of the `i`-th strategy |
| Factory.AllKindsListed | src/strategy/factory.rs:48-75 | every strategy the factory can build is in the list |
| Factory.AllKindsPositions | src/strategy/factory.rs:48-75 | each strategy sits at exactly one position of the list |
| Factory.AvailableMatchesFactory | src/strategy/factory.rs:15-76 | `create_strategy` returns a strategy iff the name is one of the advertised names, case-sensitively; every other string gives none |
| Factory.AvailableDistinct | src/strategy/factory.rs:48-75 | the advertised names are pairwise distinct |
| Filter.StepCounters | src/market_data/filter.rs:33-41 | every call adds exactly one to the received counter; the rejection counters never fall and together rise by one exactly when the event is rejected; order books and depth updates pass and change nothing else |
| Filter.TradeIdHandling | src/market_data/filter.rs:45-50 | a duplicate id (`id <= last` with `last != 0`) is rejected, counted, and leaves every mark untouched; a fresh id is recorded before the later checks, even when they reject |
| Filter.TimeAndPriceHandling | src/market_data/filter.rs:52-72 | an out-of-order event is rejected without moving the timestamp; an outlier is rejected without moving the price; an event passes iff neither test fires, and then both marks take its values; the id marks are untouched |
| Filter.SeparateIdMarks | src/market_data/filter.rs:75-103 | (with the separate fields at lines 6-9) trades never move the aggregated-trade id mark and aggregated trades never move the trade id mark |
| Filter.RunConsistent | src/market_data/filter.rs:33-111 | over any event sequence the rejection counters together never exceed the received counter, which counts every event, so the subtraction in the score never underflows |
| Filter.QualityScore | src/market_data/filter.rs:107-111 | the score lies in [0, 100], is 100 when nothing was received or nothing rejected, and 0 when everything was rejected |
| Filter.DataFilter.constructor | src/market_data/filter.rs:19-31 | a new filter has every mark and counter at zero, no last price, and the given threshold |
| Filter.DataFilter.ShouldProcess | src/market_data/filter.rs:33-41 | the new filter state and verdict are those of the `Step` specification, and the counters stay consistent |
| Filter.DataFilter.FilterTrade | src/market_data/filter.rs:43-73 | the in-place trade check yields the state and verdict `CheckTrade` specifies |
| Filter.DataFilter.FilterAggTrade | src/market_data/filter.rs:75-105 | the in-place aggregated-trade check yields the state and verdict `CheckAggTrade` specifies |
| Filter.DataFilter.CheckTimeAndPriceInPlace | src/market_data/filter.rs:52-72 | the in-place timestamp and outlier checks yield the state and verdict `CheckTimeAndPrice` specifies |
| Filter.DataFilter.GetQualityScore | src/market_data/filter.rs:107-111 | the filter's score lies in [0, 100] and is 100 before any event |
| Grid.GridLevels | src/strategy/grid_trading.rs:27-33 | the grid has 11 levels, level `k` is `base * (1 + (k - 5) * gridSize / 100)`, and the middle level is the base price itself |
| Grid.GridLevelsIncrease | src/strategy/grid_trading.rs:27-33 | around a positive base with positive spacing the levels strictly increase, so the levels below the middle are below the base and those above it above |
| Grid.FirstNear | src/strategy/grid_trading.rs:35-42 | the index returned is of a level within relative tolerance 0.0005 with no earlier such level; none iff no level is within tolerance |
| Grid.DecideProps | src/strategy/grid_trading.rs:63-98 | at most one signal per call, only when Trading and more than 10 000 ms after the last one (wrapping `u64` difference), and then the last signal time is the trade's; without a signal nothing changes; a Buy comes from a level below the middle while fewer than 5 lots are held and pushes a lot of 0.0005 at the price; a Sell comes from a level above the middle and pops and sells the most recent lot; at most 5 lots are ever held |
| Grid.GridTrading.constructor | src/strategy/grid_trading.rs:17-25 | a new strategy has 0.05% spacing, no levels, a zero base price, no lots and no signal time |
| Grid.GridTrading.SetupGrid | src/strategy/grid_trading.rs:27-33 | the loop lays out exactly the 11 levels of `GridLevels` around the price and makes it the base; the lots and signal time are untouched |
| Grid.GridTrading.FindGridLevel | src/strategy/grid_trading.rs:35-42 | the loop returns the first level within tolerance with its index, exactly as `FirstNear` specifies, or none when no level is within tolerance |
| Grid.GridTrading.ProcessTrade | src/strategy/grid_trading.rs:57-102 | the grid is laid out around the trade price exactly when the base price is 0; then the lots, signal time and opportunities are those of `Decide`, and one data point labelled by the first opportunity is recorded; the lifecycle is not stepped |
| Grid.GridTrading.CheckGrid | src/strategy/grid_trading.rs:63-98 | the in-place signal logic yields the lots, signal time and opportunities `Decide` specifies and leaves the grid alone |
| Grid.GridTrading.ProcessAggrTrade | src/strategy/grid_trading.rs:104 | aggregated trades never emit and change nothing |
| Grid.GridTrading.ProcessOrderbook | src/strategy/grid_trading.rs:105 | order books never emit and change nothing |
| Lifecycle.StepOnTrade | src/strategy/logger.rs:106-114 | on market data Booting moves to Accumulating, Accumulating moves to Trading only when the machine is stable, and no other state moves |
| Lifecycle.StepOnBook | src/strategy/logger.rs:75-78 | an order book can only move Booting to Accumulating, never to Trading |
| Logger.TradeOpportunitiesProps | src/strategy/logger.rs:124-151 | nothing is emitted outside Trading; in Trading a Buy is emitted iff the count is a multiple of 5 and a Sell iff it is a multiple of 8; at multiples of 40 both, the Buy first |
| Logger.PaperTrader.constructor | src/strategy/logger.rs:16-22 | a new trader has counted nothing and remembers no price and a zero spread |
| Logger.PaperTrader.HandleTradeData | src/strategy/logger.rs:97-171 | the trade counter grows by exactly one, the lifecycle steps as for every strategy, the last price becomes the trade price, the opportunities are the scripted ones of `TradeOpportunities`, and one data point labelled by the first of them is recorded |
| Logger.ImbalanceScoreBounded | src/strategy/logger.rs:68-69 | with non-negative best quantities the order-book imbalance score lies in [-1, 1] and is positive exactly when the best bid outweighs the best ask |
| Logger.PaperTrader.ProcessOrderbook | src/strategy/logger.rs:50-93 | nothing is emitted; the spread is remembered when both sides have a level; the machine can only move Booting to Accumulating; exactly the (new) current state's row of the inferred matrix is rewritten from the spread and imbalance scores with volatility 0; a data point is recorded exactly when the mid price is positive |
| MarketData.BookSpread | src/strategy/dca_strategy.rs:50-52 | a spread exists iff both sides have a level, and is then best ask minus best bid |
| Martingale.Pow2 | src/strategy/martingale.rs:85 | a power of two is at least 1 |
| Martingale.EntrySizeBounds | src/strategy/martingale.rs:85 | (also the size shown at line 38) from the base size an entry is between the base and 32 times it; each of the first five losses doubles it and later losses leave it at the cap |
| Martingale.NoExitOnEntryPrice | src/strategy/martingale.rs:84-113 | measured against its own price the PnL is neither above +0.2% nor below -0.2% (also for a zero price, where the ratio is NaN) |
| Martingale.DecideAtMostOne | src/strategy/martingale.rs:80-126 | at most one opportunity per call, the state changes exactly when one is emitted, and nothing happens outside Trading |
| Martingale.DecideEntry | src/strategy/martingale.rs:80-95 | a Buy is emitted exactly when Trading, flat and on a multiple of 100 trades; it carries `base * 2^min(losses, 5)` and opens the position at the trade price |
| Martingale.DecideExit | src/strategy/martingale.rs:97-125 | a Sell comes only from an open position, always for 0.001, and closes it; a take-profit above +0.2% clears the losses and restores the base size, a stop-loss below -0.2% counts one more loss |
| Martingale.MartingaleStrategy.constructor | src/strategy/martingale.rs:19-28 | a new strategy is flat with no losses, no trades and the base size 0.0001 |
| Martingale.MartingaleStrategy.NextSize | src/strategy/martingale.rs:38 | the "Next Size" feature lies between the base size and 32 times it |
| Martingale.MartingaleStrategy.HandleTrade | src/strategy/martingale.rs:64-142 | counts the trade, steps the lifecycle as for every strategy, then the fields and opportunities are those of `Decide`; one data point labelled by the first opportunity is recorded |
| Martingale.MartingaleStrategy.CheckMartingale | src/strategy/martingale.rs:77-126 | the in-place entry and exit logic yields the fields and opportunities `Decide` specifies |
| Martingale.MartingaleStrategy.ProcessOrderbook | src/strategy/martingale.rs:55-60 | only the spread changes, and only when both sides have a level; nothing is emitted |
| Repository.TradeRow | src/database/repository.rs:6-25 | a saved trade's integer columns fit `BIGINT` after the `as i64` casts |
| Repository.AggRow | src/database/repository.rs:27-67 | an aggregated trade is stored with its aggregate id as `trade_id` and 0 for both order ids, its columns fitting `BIGINT` |
| Repository.ToTradeEvent | src/database/repository.rs:160-175 | a fetched row becomes an event of type "trade" whose order time is its event time; a missing price or quantity reads as 0 |
| Repository.TradeRoundTrip | src/database/repository.rs:160-175 | (against `save_trade`, lines 6-25) a trade saved and read back is the same trade, labelled "trade" with its order time set to its event time (the `u64`/`i64` casts cancel out) |
| Repository.AggRoundTrip | src/database/repository.rs:160-175 | (against `save_aggr_trade`, lines 27-46) an aggregated trade saved and read back keeps its time, symbol, price, quantity and side, carries its aggregate id as trade id and has 0 for both order ids |
| Repository.Selected | src/database/repository.rs:132-158 | every selected row satisfies the WHERE clause, and the selection is a sub-multiset of the table |
| Repository.QueryEndsWithOrder | src/database/repository.rs:148 | a query whose last piece is the ordering clause ends with `ORDER BY event_time ASC` |
| Repository.SubmultisetFits | src/database/repository.rs:158 | rows fetched from a table of valid rows are valid |
| Repository.BuiltQueryMeaning | src/database/repository.rs:132-156 | with the clauses and binds the builder produces, the database selects a row iff it has the symbol and market type and lies within the optional inclusive bounds |
| Repository.BuiltQuerySelects | src/database/repository.rs:132-158 | with the built clauses and binds, the query selects exactly the rows in range, in table order |
| Repository.BuildRangeQuery | src/database/repository.rs:132-156 | the symbol is `$1`, the market type `$2`, the start bound `$3`, the end bound `$4` after a start bound and `$3` without one; the text ends with the ordering clause; the placeholders are numbered 1..n in text order, one per bound value |
| Repository.TradeTable.constructor | src/database/repository.rs:6-46 | a new table is empty |
| Repository.TradeTable.SaveTrade | src/database/repository.rs:6-25 | on success exactly the trade's row is appended; a failure is passed back and nothing is written |
| Repository.TradeTable.SaveAggrTrade | src/database/repository.rs:27-46 | on success exactly the aggregated trade's row (dummy order ids) is appended; a failure is passed back and nothing is written |
| Repository.TradeTable.SaveAggrTradesBulk | src/database/repository.rs:48-83 | an empty batch is Ok and writes nothing; a successful insert appends all rows in order; a failed one writes nothing and is Ok iff its message contains "duplicate key" or "unique constraint", otherwise it is passed back |
| Repository.TradeTable.RunQuery | src/database/repository.rs:148-158 | the result is exactly the selected rows, as a multiset, sorted ascending by event time |
| Repository.TradeTable.GetHistoricalTradesRange | src/database/repository.rs:125-178 | the fetched rows are exactly those of the symbol and market type within the optional inclusive bounds, sorted ascending by event time, each mapped to its event |
| Repository.TradeTable.GetHistoricalTrades | src/database/repository.rs:121-123 | the Spot trades of the symbol, unbounded, sorted ascending by event time |
| Repository.TradeTable.GetDataRange | src/database/repository.rs:223-233 | both bounds are absent iff the symbol and market type have no rows; otherwise they are the smallest and largest stored event times, cast back to `u64` |
| Repository.ToTradeEvents | src/database/repository.rs:160-175 | each fetched row is mapped to its event, in order |
| Repository.SelectedExtend | src/database/repository.rs:158 | selecting from one more row adds that row exactly when it satisfies the clauses |
| Repository.InsertByTime | src/database/repository.rs:148 | inserting into rows sorted by time keeps them sorted and adds exactly the one row |
| Risk.ReportFor | src/strategy/risk.rs:12-33 | the total risk is 0.8 for more than 5 opportunities and 0.3 otherwise, the drawdown warning holds iff there are more than 5, leverage risk is always 0.1 and the recommended size 0.005 |
| Risk.AnalyzeOpportunities | src/strategy/risk.rs:7-36 | the report is `ReportFor` the batch size; the processed batch has the same length and order and every field but the risk score unchanged; each risk score is scaled by 0.8 for a score above 0.8 and then by 1.5 under a drawdown warning |
| Risk.BestIndex | src/strategy/risk.rs:40-42 | none iff no opportunity has risk score below 0.5; otherwise an acceptable opportunity of greatest score, with no later acceptable one of equal score (the last on ties, as `max_by` takes) |
| Risk.SelectBestTrade | src/strategy/risk.rs:38-44 | none iff no opportunity has risk score below 0.5; otherwise the signal of an acceptable opportunity of greatest score |
| Scalper.EntryScore | src/strategy/scalper_strategy.rs:70 | the entry score `(trend / 10).min(0.8)` never exceeds 0.8, also for an infinite trend |
| Scalper.DecideProps | src/strategy/scalper_strategy.rs:56-90 | at most one opportunity per call and the position fields change only with one; signals need Trading and at least 10 ticks; an entry needs a flat book, a trend above 1 bps and more than 5000 ms since the last entry, and opens at the trade price stamping the time; an exit needs an open scalp and the exit test, and leaves the time alone |
| Scalper.ScalperStrategy.constructor | src/strategy/scalper_strategy.rs:17-24 | a new strategy has no ticks, no open scalp and no signal time |
| Scalper.ScalperStrategy.ProcessTrade | src/strategy/scalper_strategy.rs:46-94 | the price joins the window, which keeps at most the 20 newest ticks; the fields and opportunities are those of `Decide`; one data point labelled by the first opportunity is recorded; the lifecycle is not stepped |
| Scalper.ScalperStrategy.CheckScalp | src/strategy/scalper_strategy.rs:53-90 | the in-place signal logic yields the fields and opportunities `Decide` specifies and leaves the window alone |
| Scalper.ScalperStrategy.ProcessAggrTrade | src/strategy/scalper_strategy.rs:96-101 | an aggregated trade's price joins the same bounded window, nothing is emitted and the position fields are untouched |
| Scalper.ScalperStrategy.ProcessOrderbook | src/strategy/scalper_strategy.rs:103 | order books never emit and change nothing |
| StateMachine.ToIndex | src/state_machine/mod.rs:13-21 | every state has an index below 5 |
| StateMachine.All | src/state_machine/mod.rs:23-31 | the five states listed so that position `i` holds the state with index `i` |
| StateMachine.IndexBijection | src/state_machine/mod.rs:13-31 | `to_index` is injective and `all()[to_index(s)] == s` for every state |
| StateMachine.DefaultState | src/state_machine/mod.rs:34-38 | the default state is the one with index 0 (Booting) |
| StateMachine.OnOrderBook | src/strategy/logger.rs:75-78 | an order book never moves the lifecycle into Trading and moves it only out of Booting |
| StateMachine.LifecycleFromBooting | src/strategy/logger.rs:106-114 | starting at Booting, a run of trades only visits Booting, Accumulating and Trading; it stays at Booting exactly when there were no trades, and ends in Trading exactly when some trade after the first saw the machine stable |
| StateMachine.LifecycleFromAccumulating | src/strategy/logger.rs:108-112 | from Accumulating, a run of trades ends in Trading exactly when some trade saw the machine stable, and otherwise stays in Accumulating |
| StateMachine.TradingIsAbsorbing | src/strategy/logger.rs:106-114 | once Trading, further trades never leave Trading |
| StateMachine.RowOf | src/state_machine/mod.rs:80 | a row of the counter matrix, cell for cell |
| StateMachine.InferredScoresPositive | src/state_machine/mod.rs:99-131 | every unnormalised score is non-negative and their sum is positive in every state, so the `sum > 0.0` guard always passes |
| StateMachine.InferredRowIsDistribution | src/state_machine/mod.rs:130-136 | the normalised row written for the current state is a probability distribution: entries non-negative, summing to one |
| StateMachine.TransitionRowIsDistribution | src/state_machine/mod.rs:79-85 | every row with a positive total, divided cell by cell by that total, sums to one |
| StateMachine.Machine.constructor | src/state_machine/mod.rs:50-57 | a new machine is Booting, stamped with the clock reading, with all-zero matrices and no recorded transitions |
| StateMachine.Machine.TransitionTo | src/state_machine/mod.rs:63-75 | a request for the current state changes nothing; any other state bumps exactly the `[from][to]` counter by one, becomes current and restamps the clock; the counter sum always equals the number of effective transitions and the diagonal stays zero |
| StateMachine.Machine.IsStable | src/state_machine/mod.rs:139-144 | stable iff the state is not Accumulating or at least 6000 ms (more than five whole seconds) have elapsed since the last transition |
| StateMachine.Machine.GetTransitionProbabilities | src/state_machine/mod.rs:77-88 | a 5x5 table whose entry `[i][j]` is `count[i][j] / rowTotal[i]`, or 0 for an all-zero row; every non-zero row sums to one |
| StateMachine.Machine.UpdateInferredProbabilities | src/state_machine/mod.rs:95-137 | only the current state's row changes, and it becomes the normalised scores (`InferredRow`); every other row is unchanged |
| Swing.Momentum | src/strategy/swing_trader.rs:28-33 | momentum is 0 with fewer than 20 prices, otherwise the percent change of the newest price over the one 19 places back, with the `f64` outcomes of a zero base |
| Swing.DecideProps | src/strategy/swing_trader.rs:87-119 | the position stays flat or long and at most one opportunity is emitted; with no opportunity nothing changes; a Buy needs Trading, a flat book and momentum above 0.1% and opens at the trade price (never exited in the same call); a Sell needs Trading, a long and the reversal/target/stop test, and goes flat |
| Swing.SwingTrader.constructor | src/strategy/swing_trader.rs:18-26 | a new trader is flat with an empty window and zero counters |
| Swing.SwingTrader.HandleTrade | src/strategy/swing_trader.rs:48-58 | (with `handle_trade`, lines 69-135) the trade is counted, the window keeps the 50 newest prices, the lifecycle takes one trade step, the position and opportunities are those of `Decide` and one data point labelled by the first opportunity is recorded |
| Swing.SwingTrader.CheckSwing | src/strategy/swing_trader.rs:84-119 | the in-place signal logic yields exactly the position, entry price and opportunities `Decide` specifies |
| Swing.SwingTrader.ProcessOrderbook | src/strategy/swing_trader.rs:60-65 | an order book with both sides updates only the remembered spread to best ask minus best bid, and nothing is emitted |
| Trend.EmaOfBounded | src/strategy/trend_follower.rs:30-34 | with a smoothing factor in [0, 1] the EMA recurrence is a weighted mean, so it stays between any lower and upper bound of the series |
| Trend.EmaSpecBounded | src/strategy/trend_follower.rs:26-35 | `ema(period)` is 0 before `period` prices are held, and afterwards lies between the lowest and highest of the last `period` prices |
| Trend.Kinds | src/strategy/trend_follower.rs:96-119 | one flag per emitted signal, true exactly for a Buy |
| Trend.DecideAlternates | src/strategy/trend_follower.rs:91-120 | the crossover logic keeps the signal history alternating Buy, Sell, Buy, ... and the position flag true exactly after a Buy: no two Buys or two Sells in a row |
| Trend.TrendFollower.constructor | src/strategy/trend_follower.rs:17-24 | a new follower is out of position with an empty window, zero counters and no signal history |
| Trend.TrendFollower.Ema | src/strategy/trend_follower.rs:26-35 | the accumulator loop returns exactly `EmaSpec` of the window: 0 before `period` prices, else the EMA of the last `period` with `k = 2 / (period + 1)` seeded with the oldest |
| Trend.TrendFollower.HandleTrade | src/strategy/trend_follower.rs:52-62 | (with `handle_trade`, lines 73-136) the trade is counted, the window keeps the 50 newest prices, the lifecycle takes one trade step, the gate is Trading with at least 20 prices, the position and opportunities are those of `Decide` on EMA(5) and EMA(12), the history grows by exactly the emitted signals and one data point is recorded |
| Trend.TrendFollower.CheckCrosses | src/strategy/trend_follower.rs:88-120 | the in-place crossover logic yields exactly the position flag and opportunities `Decide` specifies and keeps the alternation invariant |
| Trend.TrendFollower.ProcessOrderbook | src/strategy/trend_follower.rs:64-69 | an order book with both sides updates only the remembered spread, and nothing is emitted |
| Breakout.MaxOf | src/strategy/volatility_breakout.rs:33 | the fold with `f64::max` over a non-empty window yields an element of it that bounds every element from above |
| Breakout.MinOf | src/strategy/volatility_breakout.rs:34 | the fold with `f64::min` yields an element that bounds every element from below |
| Breakout.GetRange | src/strategy/volatility_breakout.rs:28-36 | (0, 0) with fewer than 10 prices; otherwise the high and low bracket each of the last 10 prices, so the high is never below the low |
| Breakout.NoBreakout | src/strategy/volatility_breakout.rs:92-98 | because the range already includes the trade's own price, `price > high + range * 0.01` with a positive range never holds: the entry branch is dead |
| Breakout.VolatilityBreakout.constructor | src/strategy/volatility_breakout.rs:18-26 | a new strategy is out of position with an empty window and zero counters |
| Breakout.VolatilityBreakout.HandleTrade | src/strategy/volatility_breakout.rs:53-63 | (with `handle_trade`, lines 74-143) the trade is counted, the window keeps the 30 newest prices, the lifecycle takes one trade step; a flat strategy stays flat and silent; an open one emits one exit exactly when Trading with a positive range and a move above +0.2% or below -0.1%, and then goes flat; one data point is recorded |
| Breakout.VolatilityBreakout.CheckBreakout | src/strategy/volatility_breakout.rs:89-127 | the in-place signal logic: at most one opportunity, always the exit; emitted exactly when in position, Trading, with a positive range and an exit move; the entry price and window are untouched |
| Breakout.VolatilityBreakout.ProcessOrderbook | src/strategy/volatility_breakout.rs:65-70 | an order book with both sides updates only the remembered spread, and nothing is emitted |
| Signals.ActionOf | src/strategy/swing_trader.rs:123-127 | the recorded action is absent exactly when no opportunity was emitted, and otherwise names the first opportunity's kind |
| Web.PushBoundedProps | src/web/mod.rs:150-153 | a bounded push appends at the back and drops at most the oldest element; it keeps the length within the cap, the new element is last, and below the cap nothing is dropped |
| Web.CountSampledIsQuotient | src/web/mod.rs:196-197 | with a sample rate of at least 1, exactly `n / sampleRate` of the first `n` data points are recorded |
| Web.DivUnique | src/web/mod.rs:197 | quotient and remainder are the unique `q, r` with `n == q * d + r` and `0 <= r < d` (used for the sampling count) |
| Web.Recorded | src/web/mod.rs:195-202 | recording a point always advances the counter and changes nothing but the counter and the history; off the sampling interval the history is unchanged; on it the point becomes the newest entry; the history never exceeds `max_history` |
| Web.AppState.constructor | src/web/mod.rs:95-139 | a new state holds a Booting machine, empty histories, zero counters, `max_history` 1000, initial balance 10000, sample rate 1, not trading |
| Web.AppState.PushPortfolioSnapshot | src/web/mod.rs:142-154 | the snapshot (stamped with the injected wall-clock second) is appended, at most 500 are kept, nothing else changes |
| Web.AppState.PushDataPointAt | src/web/mod.rs:172-203 | the dashboard becomes `Recorded` of the point carrying the current lifecycle state and equity `initial_balance + realized_pnl` |
| Web.AppState.PushDataPoint | src/web/mod.rs:156-170 | the same recording with timestamp `now_secs * 1000`, so a recorded point's timestamp is a whole second |
| Web.AppState.ClearAllData | src/web/mod.rs:205-212 | the history is emptied, trade counters and realized PnL zeroed, the machine moved to Booting (one effective transition unless already there), and the snapshots, counter and sample rate are untouched |
| Web.ParseSymbolSpecCorrect | src/web/mod.rs:552-562 | a `MARKET:SYMBOL` spec with one ':' parses to its two halves, Futures exactly when the market part upper-cases to "FUTURES"; a spec without exactly one ':' is rejected |
| Web.DownloadMarketType | src/web/mod.rs:488-491 | Futures exactly for "FUTURES" and "futures", Spot for anything else or nothing |
| Web.DownloadMarketTypeMixedCase | src/web/mod.rs:488-491 | "Futures" selects Spot on the download request although the backtest spec "Futures:BTCUSDT" selects Futures |
| Web.HistoryInterval | src/web/mod.rs:376-380 | the database bucket is "hour" exactly for "1h", "minute" otherwise |
| Common.WrappingSub | src/strategy/grid_trading.rs:67 | `a - b` on `u64` in a release build: the difference when `b <= a`, else the difference wrapped modulo 2^64 |
| Common.U64AsI64 | src/database/repository.rs:13 | `x as i64` keeps values below 2^63 and lands in the `i64` range |
| Common.I64AsU64 | src/database/repository.rs:164 | `v as u64` keeps non-negative values and lands in the `u64` range |
| Common.CastRoundTrip | src/database/repository.rs:13-16 | the two casts are inverse to each other, so every `u64` survives the round trip through a `BIGINT` column and back |
| Common.Div | src/strategy/swing_trader.rs:32 | `f64` division of finite operands: the real quotient for a non-zero divisor, otherwise an infinity of the dividend's sign or NaN, which compares false both ways |
| Common.NoChangeAgainstItself | src/strategy/swing_trader.rs:106-107 | a price measured against itself (zero base included) is never above a non-negative threshold nor below a non-positive one |
| Common.QuotientTrichotomy | src/strategy/swing_trader.rs:107 | no `f64` quotient is both above and below the same threshold |
| Common.NatToString | src/strategy/swing_trader.rs:95 | the decimal rendering of a counter is non-empty and made of digits |
| Common.ToUpper | src/web/mod.rs:558 | ASCII upper-casing keeps the length and maps each character |
| Common.Split | src/web/mod.rs:552 | `split(':')` yields one more piece than there are separators, and no piece contains one |
| Common.SplitJoin | src/web/mod.rs:552-553 | splitting `a:b` with no ':' in `a` or `b` gives back exactly `[a, b]` |
| Common.SplitNoSep | src/web/mod.rs:552 | a string without the separator splits into itself |

## Left out

- Concurrency and I/O are not modelled: websocket feeds, the exchange worker threads (`binance_worker.rs`, `futures_worker.rs`), `main.rs`, the tokio runtime, the `RwLock` around the shared state, the SSE progress channel and the HTTP routing. `AppState` and the simulator are ordinary objects here.
- Clocks are parameters: `SystemTime::now`, `Instant::now` and `Instant::elapsed`. `is_stable` compares two millisecond readings.
- `src/metrics/mod.rs` wraps an external histogram crate and is not part of this model. Neither are the latency fields of a data point.
- The indicator strategies (RSI, MACD, Bollinger and the rest) are not part of this model. Their decisions are `f64` indicator arithmetic.
- Floating point is modelled only in part. Prices and amounts are exact reals. An `f64` division is modelled by `Common.Quotient`, which covers infinities and NaN but not rounding.
- The backtest's win rate, yield, Sharpe ratio, profit factor and average win/loss are floating-point reporting and are left out.
- Decimal text is not parsed. Events carry the parsed price and quantity. Text that does not parse reads as 0, as every consumer does.
- Formatted numbers in reason strings and ids are not modelled. Each reason is its literal part only. Ids do carry the counter in decimal.
- `get_features` is modelled only for `Dca.DcaStrategy.Features` and the Martingale "Next Size" value (`Martingale.MartingaleStrategy.NextSize`). The other strategies' features are `{:.2}` formatting of values that are modelled elsewhere.
- `get_state` and `get_inferred_probabilities` are not separate members. They are plain reads of `current` and `inferred`.
- The live branch of `ExecutionManager::execute` and `truncate_qty` are not part of this model. They are exchange calls and `f64` floor rounding.
- The SQL engine is not modelled:
  - `get_aggregated_trades` and its `date_trunc` buckets.
  - The DELETEs of `cleanup_old_data`.
  - `save_order_book`, whose rows no modelled operation reads.
  - The unique index on trades, whose definition is not part of this model.
- A write's success or failure is a parameter (`Repository.DbOutcome`).
- `Repository.TradeTable.RunQuery`: does not state the order of rows with equal event times. SQL leaves that order unspecified.
- `Execution.Simulator.Execute`: requires a positive quantity on a Buy. The source divides the cost by the quantity for a new position's entry price, which gives NaN for a zero quantity. A negative quantity would leave a position with a non-positive amount.
- `Execution.Simulator.GetBalances`: the order of the returned pairs is not stated, because it follows `HashMap` iteration order.
- `Logger.PaperTrader.HandleTradeData`: does not apply the `update_inferred_probabilities(0.01, 0.0, volatility)` call on each trade. Its volatility score is an `f64` ratio over the previous price, infinite when that price is 0. The row it writes is specified separately by `StateMachine.Machine.UpdateInferredProbabilities`.
- `Backtest.RunLoop`: the strategy and the simulated executor are inputs. Per historical trade, `recordings` gives the point the strategy's `process_trade` records and `fills` gives the opportunities it returns, each with the PnL the executor realized. The strategy's other effects (its own fields and the lifecycle step, which does nothing once the setup has forced Trading) and the `current_features` write are not modelled.
- `Logger.PaperTrader.ProcessOrderbook`: a zero mid price or a zero sum of the best quantities makes the source's score NaN or infinite. The model reads that score as 0.
- `StateMachine.Machine.UpdateInferredProbabilities`: the scores and their normalisation are computed over exact reals. A NaN score or `f64` rounding is not modelled.
- `Common.ToUpper`: upper-cases ASCII letters only. Rust's `to_uppercase` is Unicode-aware, which does not matter for the market names compared here.
- Counters are unbounded naturals. A `u64` trade counter wrapping after 2^64 trades is not modelled.
- Outside the places named above, `u64` arithmetic is not modelled either. Examples are `u64` event-time subtraction in log messages and the download report's `end_ts - start_ts`.

## Findings

| source | as written | input that shows it | evidently intended | confidence | as-written member | corrected member |
|---|---|---|---|---|---|---|
| src/market_data/downloader.rs:130 | `chunk_start + MAX_WINDOW_MS` on `u64`, which wraps in a release build (and panics in a debug build) | `chunk_start = 2^64 - 1000`, `end_ts = 2^64 - 1`. The chunk end becomes 3 599 000, before its own start, and the loop restarts from a small timestamp. `execute_isolated_backtest` (src/web/mod.rs:540) passes `u64::MAX` as the end when a request has none | a saturating addition, so the loop cuts `[start, end)` into contiguous chunks of at most one hour | not executed | `Downloader.ChunkEndAsWritten`, `Downloader.ChunkEndWrapsBackwards` | `Downloader.PlanChunks` |
