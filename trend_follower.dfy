/** `TrendFollower`: EMA(5)/EMA(12) crossovers over a window of the last 50 prices. */
module Trend {
  import opened Common
  import opened Signals
  import opened MarketData
  import opened StateMachine
  import opened Web
  import opened Lifecycle

  /** Most prices kept. */
  const WindowSize: nat := 50
  /** Prices needed before any signal. */
  const MinPrices: nat := 20
  const ShortPeriod: nat := 5
  const LongPeriod: nat := 12

  /** The EMA recurrence over a non-empty series, seeded with its first value. */
  function EmaOf(s: seq<real>, k: real): real
    requires |s| >= 1
    decreases |s|
  {
    if |s| == 1 then s[0] else s[|s| - 1] * k + EmaOf(s[..|s| - 1], k) * (1.0 - k)
  }

  /** `ema(period)`: 0 with fewer than `period` prices, else the EMA of the last `period` with `k = 2 / (period + 1)`. */
  function EmaSpec(prices: seq<real>, period: nat): real
    requires period >= 1
  {
    if |prices| < period then 0.0
    else EmaOf(prices[|prices| - period..], 2.0 / (period as real + 1.0))
  }

  /** With a smoothing factor in [0, 1] the EMA is a weighted mean, so it stays within the series' bounds. */
  lemma {:induction false} EmaOfBounded(s: seq<real>, k: real, lo: real, hi: real)
    requires |s| >= 1 && 0.0 <= k <= 1.0
    requires forall i :: 0 <= i < |s| ==> lo <= s[i] <= hi
    ensures lo <= EmaOf(s, k) <= hi
    decreases |s|
  {
    if |s| > 1 {
      var init := s[..|s| - 1];
      EmaOfBounded(init, k, lo, hi);
      var e, p := EmaOf(init, k), s[|s| - 1];
      assert EmaOf(s, k) - lo == k * (p - lo) + (1.0 - k) * (e - lo);
      assert hi - EmaOf(s, k) == k * (hi - p) + (1.0 - k) * (hi - e);
      NonNegProduct(k, p - lo);
      NonNegProduct(1.0 - k, e - lo);
      NonNegProduct(k, hi - p);
      NonNegProduct(1.0 - k, hi - e);
    }
  }

  lemma NonNegProduct(a: real, b: real)
    requires a >= 0.0 && b >= 0.0
    ensures a * b >= 0.0
  {
  }

  /**
   * Once `period` prices are held the EMA lies between the lowest and highest
   * of the last `period` of them; before that it is 0.
   */
  lemma EmaSpecBounded(prices: seq<real>, period: nat, lo: real, hi: real)
    requires period >= 1
    requires forall i :: |prices| - period <= i < |prices| && 0 <= i ==> lo <= prices[i] <= hi
    ensures |prices| < period ==> EmaSpec(prices, period) == 0.0
    ensures |prices| >= period ==> lo <= EmaSpec(prices, period) <= hi
  {
    if |prices| >= period {
      var recent := prices[|prices| - period..];
      var k := 2.0 / (period as real + 1.0);
      assert 0.0 <= k <= 1.0 by {
        assert k * (period as real + 1.0) == 2.0;
      }
      forall i | 0 <= i < |recent|
        ensures lo <= recent[i] <= hi
      {
        assert recent[i] == prices[|prices| - period + i];
      }
      EmaOfBounded(recent, k, lo, hi);
    }
  }

  function TrendBuy(count: nat, symbol: string, price: real, ts: nat): Opportunity {
    Opportunity("trend_buy_" + NatToString(count), Buy(symbol, Some(price), 0.001), 0.75, 0.35, "golden cross", ts)
  }

  function TrendSell(count: nat, symbol: string, price: real, ts: nat): Opportunity {
    Opportunity("trend_sell_" + NatToString(count), Sell(symbol, Some(price), 0.001), 0.75, 0.35, "death cross", ts)
  }

  /**
   * The position logic of `handle_trade` once the gate (Trading, at least 20
   * prices) is open: Buy on a golden cross when flat, then Sell on a death
   * cross when long. Returns the new position flag and the opportunities.
   */
  function Decide(inPosition: bool, gate: bool, emaShort: real, emaLong: real,
                  count: nat, symbol: string, price: real, ts: nat): (bool, seq<Opportunity>)
  {
    if !gate then (inPosition, [])
    else
      var buying := emaShort > emaLong * 1.001 && !inPosition;
      var held := inPosition || buying;
      var bought := if buying then [TrendBuy(count, symbol, price, ts)] else [];
      if emaShort < emaLong * 0.999 && held then (false, bought + [TrendSell(count, symbol, price, ts)])
      else (held, bought)
  }

  /** Which emitted signals were Buys (true) and which were Sells (false). */
  function Kinds(opps: seq<Opportunity>): (kinds: seq<bool>)
    ensures |kinds| == |opps|
    ensures forall i :: 0 <= i < |opps| ==> kinds[i] == opps[i].signal.Buy?
  {
    seq(|opps|, i requires 0 <= i < |opps| => opps[i].signal.Buy?)
  }

  /** Buy, Sell, Buy, ... starting with a Buy. */
  predicate Alternates(history: seq<bool>) {
    forall i :: 0 <= i < |history| ==> history[i] == (i % 2 == 0)
  }

  /**
   * If the signal history so far alternates and the position flag says whether
   * it ends in a Buy, one more call keeps both facts: Buys and Sells strictly alternate.
   */
  lemma DecideAlternates(history: seq<bool>, inPosition: bool, gate: bool, emaShort: real, emaLong: real,
                         count: nat, symbol: string, price: real, ts: nat)
    requires Alternates(history) && inPosition == (|history| % 2 == 1)
    ensures var (held, opps) := Decide(inPosition, gate, emaShort, emaLong, count, symbol, price, ts);
      Alternates(history + Kinds(opps)) && held == (|history + Kinds(opps)| % 2 == 1)
  {
    var (held, opps) := Decide(inPosition, gate, emaShort, emaLong, count, symbol, price, ts);
    var h := history + Kinds(opps);
    forall i | |history| <= i < |h|
      ensures h[i] == (i % 2 == 0)
    {
      var j := i - |history|;
      if opps[j].signal.Buy? {
        assert !inPosition && j == 0;
      } else {
        assert j == |opps| - 1;
        assert j == 0 ==> inPosition;
      }
    }
  }

  class TrendFollower {
    var prices: seq<real>
    var tradeCount: nat
    var lastSpread: real
    var inPosition: bool
    /** Every signal emitted so far: true for a Buy, false for a Sell. */
    ghost var history: seq<bool>

    ghost predicate Valid()
      reads this
    {
      |prices| <= WindowSize && Alternates(history) && inPosition == (|history| % 2 == 1)
    }

    constructor ()
      ensures Valid()
      ensures prices == [] && tradeCount == 0 && lastSpread == 0.0 && !inPosition && history == []
    {
      prices := [];
      tradeCount := 0;
      lastSpread := 0.0;
      inPosition := false;
      history := [];
    }

    /** `ema(period)`, by the source's accumulator loop. */
    method Ema(period: nat) returns (ema: real)
      requires period >= 1
      ensures ema == EmaSpec(prices, period)
    {
      if |prices| < period {
        return 0.0;
      }
      var k := 2.0 / (period as real + 1.0);
      var recent := prices[|prices| - period..];
      ema := recent[0];
      for i := 1 to |recent|
        invariant ema == EmaOf(recent[..i], k)
      {
        assert recent[..i + 1][..i] == recent[..i];
        ema := recent[i] * k + ema * (1.0 - k);
      }
      assert recent[..|recent|] == recent;
    }

    /**
     * `handle_trade`: counts the trade, slides the window, steps the
     * lifecycle, applies the crossover logic and records one data point.
     */
    method HandleTrade(app: AppState, symbol: string, price: real, qty: real, ts: nat, now: nat)
      returns (opps: seq<Opportunity>)
      requires Valid() && app.Valid()
      modifies this, app, app.machine, app.machine.transitions
      ensures Valid() && app.Valid()
      ensures prices == PushBounded(old(prices), price, WindowSize)
      ensures tradeCount == old(tradeCount) + 1 && lastSpread == old(lastSpread)
      ensures app.machine.current == OnMarketData(old(app.machine.current), old(app.machine.IsStable(now)))
      ensures (inPosition, opps) == Decide(old(inPosition), app.machine.current == Trading && |prices| >= MinPrices,
        EmaSpec(prices, ShortPeriod), EmaSpec(prices, LongPeriod), tradeCount, symbol, price, ts)
      ensures history == old(history) + Kinds(opps)
      ensures app.State() == Recorded(old(app.State()),
        DataPoint(ts, price, qty, app.machine.current, ActionOf(opps, "Hold"), lastSpread, Equity(old(app.State()))))
    {
      tradeCount := tradeCount + 1;
      prices := prices + [price];
      if |prices| > WindowSize {
        prices := prices[1..];
      }
      StepOnTrade(app, now);
      opps := CheckCrosses(app.machine.current == Trading && |prices| >= MinPrices, symbol, price, ts);
      app.PushDataPointAt(price, qty, ActionOf(opps, "Hold"), lastSpread, ts);
    }

    /**
     * The crossover part of `handle_trade` on the current window, when `gate`
     * (Trading with at least 20 prices) is open.
     */
    method CheckCrosses(gate: bool, symbol: string, price: real, ts: nat) returns (opps: seq<Opportunity>)
      requires Valid()
      modifies this
      ensures Valid()
      ensures prices == old(prices) && tradeCount == old(tradeCount) && lastSpread == old(lastSpread)
      ensures (inPosition, opps) == Decide(old(inPosition), gate,
        EmaSpec(prices, ShortPeriod), EmaSpec(prices, LongPeriod), tradeCount, symbol, price, ts)
      ensures history == old(history) + Kinds(opps)
    {
      DecideAlternates(history, inPosition, gate,
        EmaSpec(prices, ShortPeriod), EmaSpec(prices, LongPeriod), tradeCount, symbol, price, ts);
      opps := [];
      if gate {
        var emaShort := Ema(ShortPeriod);
        var emaLong := Ema(LongPeriod);
        ghost var buying := emaShort > emaLong * 1.001 && !inPosition;
        if emaShort > emaLong * 1.001 && !inPosition {
          inPosition := true;
          opps := opps + [TrendBuy(tradeCount, symbol, price, ts)];
        }
        assert inPosition == (old(inPosition) || buying);
        assert opps == if buying then [TrendBuy(tradeCount, symbol, price, ts)] else [];
        if emaShort < emaLong * 0.999 && inPosition {
          inPosition := false;
          opps := opps + [TrendSell(tradeCount, symbol, price, ts)];
        }
      }
      history := history + Kinds(opps);
    }

    /** `process_orderbook`: only the remembered spread changes, and nothing is emitted. */
    method ProcessOrderbook(book: OrderBook) returns (opps: seq<Opportunity>)
      modifies this
      ensures opps == []
      ensures prices == old(prices) && tradeCount == old(tradeCount) && inPosition == old(inPosition)
      ensures history == old(history)
      ensures lastSpread == BookSpread(book).GetOr(old(lastSpread))
    {
      if book.bids != [] && book.asks != [] {
        lastSpread := book.asks[0].price - book.bids[0].price;
      }
      opps := [];
    }
  }
}
