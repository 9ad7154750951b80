/**
 * The dashboard's shared application state: the lifecycle machine, the
 * bounded data-point and portfolio histories, the trade counters, and the
 * small request parsers of the HTTP handlers.
 */
module Web {
  import opened Common
  import opened StateMachine
  import opened Downloader

  /** One dashboard sample. Latency figures are not part of this model. */
  datatype DataPoint = DataPoint(
    timestamp: nat,
    price: real,
    volume: real,
    state: SystemState,
    action: Option<string>,
    spread: real,
    equity: real)

  datatype PortfolioSnapshot = PortfolioSnapshot(timestamp: nat, totalValueUsd: real)

  /** Most portfolio snapshots kept. */
  const PortfolioCap: nat := 500

  /** `push_back` followed by a single `pop_front` when the length exceeds `cap`. */
  function PushBounded<T>(q: seq<T>, x: T, cap: nat): seq<T> {
    var pushed := q + [x];
    if |pushed| > cap then pushed[1..] else pushed
  }

  /**
   * A bounded push appends at the back and drops at most one element, the
   * oldest; it keeps the length within `cap` when it was within `cap` before,
   * and the newest element is last unless `cap` is zero.
   */
  lemma PushBoundedProps<T>(q: seq<T>, x: T, cap: nat)
    ensures var r := PushBounded(q, x, cap);
      && |r| == (if |q| + 1 > cap then |q| else |q| + 1)
      && r == (q + [x])[|q| + 1 - |r|..]
      && (|q| <= cap ==> |r| <= cap)
      && (cap >= 1 && |q| <= cap ==> r[|r| - 1] == x)
      && (|q| < cap ==> r == q + [x])
  {
  }

  /** Whether the `counter`-th data point is recorded at this sample rate. */
  predicate Sampled(counter: nat, sampleRate: nat) {
    sampleRate <= 1 || counter % sampleRate == 0
  }

  /** How many of the data points numbered 1..n are recorded. */
  function CountSampled(n: nat, sampleRate: nat): nat {
    if n == 0 then 0 else CountSampled(n - 1, sampleRate) + (if Sampled(n, sampleRate) then 1 else 0)
  }

  /** Sampling records exactly one point in every `sampleRate` pushes. */
  lemma {:induction false} CountSampledIsQuotient(n: nat, sampleRate: nat)
    requires sampleRate >= 1
    ensures CountSampled(n, sampleRate) == n / sampleRate
  {
    if n > 0 {
      CountSampledIsQuotient(n - 1, sampleRate);
      DivStep(n, sampleRate);
    }
  }

  lemma DivStep(n: nat, d: nat)
    requires n >= 1 && d >= 1
    ensures n / d == (n - 1) / d + (if n % d == 0 then 1 else 0)
  {
    var q, r := (n - 1) / d, (n - 1) % d;
    if r + 1 == d {
      DivUnique(n, d, q + 1, 0);
    } else {
      DivUnique(n, d, q, r + 1);
    }
  }

  /** Quotient and remainder are determined by `n == q * d + r` with `0 <= r < d`. */
  lemma DivUnique(n: nat, d: nat, q: int, r: int)
    requires d >= 1 && 0 <= r < d && n == q * d + r
    ensures n / d == q && n % d == r
  {
    var k := q - n / d;
    assert k * d == n % d - r by {
      assert n == (n / d) * d + n % d;
      assert k * d == q * d - (n / d) * d;
    }
  }

  /** The fields of `AppState` the modelled operations read or write, as one value. */
  datatype Dashboard = Dashboard(
    history: seq<DataPoint>,
    maxHistory: nat,
    totalTrades: nat,
    winTrades: nat,
    lossTrades: nat,
    realizedPnl: real,
    initialBalance: real,
    portfolioHistory: seq<PortfolioSnapshot>,
    sampleRate: nat,
    dataPointCounter: nat,
    isTrading: bool)

  /** The equity a data point records: the initial balance plus the realized PnL. */
  function Equity(d: Dashboard): real {
    d.initialBalance + d.realizedPnl
  }

  /**
   * The dashboard after recording point `p`: the counter always advances; the
   * point joins the history only at the sampling interval, and then the oldest
   * point is dropped when the history would exceed `maxHistory`.
   */
  function Recorded(d: Dashboard, p: DataPoint): (r: Dashboard)
    ensures r.(dataPointCounter := d.dataPointCounter, history := d.history) == d
    ensures r.dataPointCounter == d.dataPointCounter + 1
    ensures !Sampled(d.dataPointCounter + 1, d.sampleRate) ==> r.history == d.history
    ensures Sampled(d.dataPointCounter + 1, d.sampleRate) && 1 <= d.maxHistory && |d.history| <= d.maxHistory ==>
      r.history != [] && r.history[|r.history| - 1] == p
    ensures |d.history| <= d.maxHistory ==> |r.history| <= d.maxHistory
  {
    PushBoundedProps(d.history, p, d.maxHistory);
    d.(dataPointCounter := d.dataPointCounter + 1,
       history := if Sampled(d.dataPointCounter + 1, d.sampleRate) then PushBounded(d.history, p, d.maxHistory) else d.history)
  }

  /** A recording that changes the history leaves the recorded point newest. */
  lemma RecordedNewest(d: Dashboard, p: DataPoint)
    ensures var r := Recorded(d, p);
      r.history != d.history ==> r.history != [] && r.history[|r.history| - 1] == p
  {
    var pushed := d.history + [p];
    if |pushed| > 1 {
      assert pushed[1..][|pushed| - 2] == p;
    }
  }

  class AppState {
    const machine: Machine
    var history: seq<DataPoint>
    var maxHistory: nat
    var totalTrades: nat
    var winTrades: nat
    var lossTrades: nat
    var realizedPnl: real
    var initialBalance: real
    var portfolioHistory: seq<PortfolioSnapshot>
    var sampleRate: nat
    var dataPointCounter: nat
    var isTrading: bool

    function State(): Dashboard
      reads this
    {
      Dashboard(history, maxHistory, totalTrades, winTrades, lossTrades, realizedPnl,
        initialBalance, portfolioHistory, sampleRate, dataPointCounter, isTrading)
    }

    ghost predicate Valid()
      reads this, machine, machine.transitions
    {
      machine.Valid() && |portfolioHistory| <= PortfolioCap
    }

    /** `AppState::new` (the fields this model keeps), at clock reading `now`. */
    constructor (now: nat)
      ensures Valid() && fresh(machine) && fresh(machine.transitions)
      ensures machine.current == Booting
      ensures State() == Dashboard([], 1000, 0, 0, 0, 0.0, 10000.0, [], 1, 0, false)
    {
      machine := new Machine(now);
      history := [];
      maxHistory := 1000;
      totalTrades := 0;
      winTrades := 0;
      lossTrades := 0;
      realizedPnl := 0.0;
      initialBalance := 10000.0;
      portfolioHistory := [];
      sampleRate := 1;
      dataPointCounter := 0;
      isTrading := false;
    }

    /**
     * `push_portfolio_snapshot` at wall-clock second `nowSecs`: the snapshot is
     * appended, at most `PortfolioCap` are kept, and nothing else changes.
     */
    method PushPortfolioSnapshot(totalValueUsd: real, nowSecs: nat)
      requires Valid()
      modifies this
      ensures Valid()
      ensures State() == old(State()).(portfolioHistory :=
        PushBounded(old(portfolioHistory), PortfolioSnapshot(nowSecs, totalValueUsd), PortfolioCap))
    {
      PushBoundedProps(portfolioHistory, PortfolioSnapshot(nowSecs, totalValueUsd), PortfolioCap);
      portfolioHistory := portfolioHistory + [PortfolioSnapshot(nowSecs, totalValueUsd)];
      if |portfolioHistory| > PortfolioCap {
        portfolioHistory := portfolioHistory[1..];
      }
    }

    /** The point `push_data_point_at` builds: current state and equity stamped in. */
    function PointAt(price: real, volume: real, action: Option<string>, spread: real, tsMs: nat): DataPoint
      reads this, machine
    {
      DataPoint(tsMs, price, volume, machine.current, action, spread, Equity(State()))
    }

    /**
     * `push_data_point_at`: the counter always advances; the point is recorded
     * only at the sampling interval, with at most one old point dropped.
     */
    method PushDataPointAt(price: real, volume: real, action: Option<string>, spread: real, tsMs: nat)
      requires Valid()
      modifies this
      ensures Valid()
      ensures State() == Recorded(old(State()), old(PointAt(price, volume, action, spread, tsMs)))
    {
      ghost var before := State();
      var dp := DataPoint(tsMs, price, volume, machine.current, action, spread, initialBalance + realizedPnl);
      assert dp == PointAt(price, volume, action, spread, tsMs);
      dataPointCounter := dataPointCounter + 1;
      if sampleRate <= 1 || dataPointCounter % sampleRate == 0 {
        history := history + [dp];
        if |history| > maxHistory {
          history := history[1..];
        }
        assert history == PushBounded(before.history, dp, maxHistory);
      }
      assert State() == before.(dataPointCounter := dataPointCounter, history := history);
    }

    /**
     * `push_data_point` at wall-clock second `nowSecs`: stamps `nowSecs * 1000`,
     * so a recorded point's timestamp is a whole number of seconds.
     */
    method PushDataPoint(price: real, volume: real, action: Option<string>, spread: real, nowSecs: nat)
      requires Valid()
      modifies this
      ensures Valid()
      ensures State() == Recorded(old(State()), old(PointAt(price, volume, action, spread, nowSecs * 1000)))
      ensures history != old(history) ==> history != [] && history[|history| - 1].timestamp % 1000 == 0
    {
      ghost var before := State();
      ghost var p := PointAt(price, volume, action, spread, nowSecs * 1000);
      PushDataPointAt(price, volume, action, spread, nowSecs * 1000);
      RecordedNewest(before, p);
      DivUnique(nowSecs * 1000, 1000, nowSecs, 0);
    }

    /**
     * `clear_all_data`: empties the data-point history, zeroes the trade
     * counters and realized PnL and moves the machine to Booting; snapshots,
     * the data-point counter and the sample rate are untouched.
     */
    method ClearAllData(now: nat)
      requires Valid()
      modifies this, machine, machine.transitions
      ensures Valid()
      ensures State() == old(State()).(history := [], totalTrades := 0, winTrades := 0,
        lossTrades := 0, realizedPnl := 0.0)
      ensures machine.current == Booting
      ensures machine.effective == old(machine.effective) + if old(machine.current) == Booting then 0 else 1
    {
      history := [];
      totalTrades := 0;
      winTrades := 0;
      lossTrades := 0;
      realizedPnl := 0.0;
      machine.TransitionTo(Booting, now);
    }
  }

  /**
   * The `"MARKET:SYMBOL"` spec of a backtest request: exactly one ':' is
   * required; a market part that upper-cases to "FUTURES" selects Futures,
   * anything else Spot.
   */
  function ParseSymbolSpec(spec: string): Option<(MarketType, string)> {
    var parts := Split(spec, ':');
    if |parts| != 2 then None
    else Some((if ToUpper(parts[0]) == "FUTURES" then Futures else Spot, parts[1]))
  }

  /** A spec parses iff it has exactly one ':', and then splits at it. */
  lemma ParseSymbolSpecCorrect(market: string, symbol: string, spec: string)
    requires ':' !in market && ':' !in symbol
    ensures ParseSymbolSpec(market + [':'] + symbol) ==
      Some((if ToUpper(market) == "FUTURES" then Futures else Spot, symbol))
    ensures CountChar(spec, ':') != 1 ==> ParseSymbolSpec(spec) == None
  {
    SplitJoin(market, symbol, ':');
  }

  /** The market type of a download request: only "FUTURES" and "futures" select Futures. */
  function DownloadMarketType(marketType: Option<string>): (m: MarketType)
    ensures m == Futures <==> marketType == Some("FUTURES") || marketType == Some("futures")
  {
    match marketType
    case Some(s) => if s == "FUTURES" || s == "futures" then Futures else Spot
    case None => Spot
  }

  /** Unlike the backtest spec, the download API is case-sensitive apart from its two spellings. */
  lemma DownloadMarketTypeMixedCase()
    ensures DownloadMarketType(Some("Futures")) == Spot
    ensures ParseSymbolSpec("Futures:BTCUSDT") == Some((Futures, "BTCUSDT"))
  {
    var market, symbol := "Futures", "BTCUSDT";
    assert market + [':'] + symbol == "Futures:BTCUSDT";
    ParseSymbolSpecCorrect(market, symbol, market + [':'] + symbol);
    UpperFutures();
  }

  lemma UpperFutures()
    ensures ToUpper("Futures") == "FUTURES"
  {
    var upper := ToUpper("Futures");
    assert upper[1] == 'U' && upper[2] == 'T' && upper[3] == 'U';
    assert upper[4] == 'R' && upper[5] == 'E' && upper[6] == 'S';
  }

  /** The bucket of an aggregated history request: "1h" is hourly, anything else per minute. */
  function HistoryInterval(interval: string): (bucket: string)
    ensures bucket == "hour" <==> interval == "1h"
    ensures bucket == "hour" || bucket == "minute"
  {
    if interval == "1h" then "hour" else "minute"
  }
}
