/** `GridTrading`: an 11-level price grid around the first traded price; buy low levels, sell high ones LIFO. */
module Grid {
  import opened Common
  import opened Signals
  import opened MarketData
  import opened StateMachine
  import opened Web

  /** Percent between two neighbouring levels. */
  const DefaultGridSize: real := 0.05
  /** Levels on each side of the base level. */
  const HalfSpan: nat := 5
  /** Most open grid positions. */
  const MaxPositions: nat := 5
  /** Relative distance within which a price is on a level. */
  const Tolerance: real := 0.0005
  /** Milliseconds that must pass between two grid signals. */
  const SignalGapMs: nat := 10000
  /** Quantity of every grid Buy. */
  const LotSize: real := 0.0005

  /** Level `k` (0..10) of the grid around `base`: `base * (1 + (k - 5) * gridSize / 100)`. */
  function GridLevel(base: real, gridSize: real, k: int): real {
    base * (1.0 + ((k - HalfSpan) as real) * gridSize / 100.0)
  }

  /** The levels `setup_grid` lays out, lowest first; the middle one is the base itself. */
  function GridLevels(base: real, gridSize: real): (levels: seq<real>)
    ensures |levels| == 2 * HalfSpan + 1
    ensures forall k :: 0 <= k < |levels| ==> levels[k] == GridLevel(base, gridSize, k)
    ensures levels[HalfSpan] == base
  {
    seq(2 * HalfSpan + 1, k requires 0 <= k < 2 * HalfSpan + 1 => GridLevel(base, gridSize, k))
  }

  lemma PositiveProduct(a: real, b: real)
    requires a > 0.0 && b > 0.0
    ensures a * b > 0.0
  {
  }

  /** Around a positive base with a positive spacing the levels strictly increase. */
  lemma GridLevelsIncrease(base: real, gridSize: real, i: nat, j: nat)
    requires base > 0.0 && gridSize > 0.0
    requires i < j < 2 * HalfSpan + 1
    ensures GridLevels(base, gridSize)[i] < GridLevels(base, gridSize)[j]
  {
    var step := (j - i) as real * gridSize / 100.0;
    PositiveProduct((j - i) as real, gridSize);
    assert step > 0.0;
    assert GridLevel(base, gridSize, j) - GridLevel(base, gridSize, i) == base * step;
    PositiveProduct(base, step);
  }

  /** `|price - level| / level < 0.0005`, with the `f64` outcome of a zero level. */
  predicate Near(price: real, level: real) {
    Div(Abs(price - level), level).Lt(Tolerance)
  }

  /** The first level `price` is near, if any. */
  function FirstNear(levels: seq<real>, price: real): (idx: Option<nat>)
    ensures idx.Some? ==> (idx.value < |levels| && Near(price, levels[idx.value])
                           && forall j :: 0 <= j < idx.value ==> !Near(price, levels[j]))
    ensures idx.None? <==> forall j :: 0 <= j < |levels| ==> !Near(price, levels[j])
  {
    if levels == [] then None
    else if Near(price, levels[0]) then Some(0)
    else
      var rest := FirstNear(levels[1..], price);
      assert forall j :: 1 <= j < |levels| ==> levels[j] == levels[1..][j - 1];
      match rest
      case None => None
      case Some(j) => Some(j + 1)
  }

  function GridBuy(t: TradeEvent, level: nat): Opportunity {
    Opportunity("grid_buy_" + NatToString(t.eventTime), Buy(t.symbol, Some(t.price), LotSize),
      0.65, 0.3, "Grid buy at level " + NatToString(level), t.eventTime)
  }

  function GridSell(t: TradeEvent, lot: (real, real)): Opportunity {
    Opportunity("grid_sell_" + NatToString(t.eventTime), Sell(t.symbol, Some(t.price), lot.1),
      0.7, 0.25, "Grid sell", t.eventTime)
  }

  /**
   * The signal part of `process_trade` on grid `levels`: when Trading and more
   * than 10 s (wrapping `u64` difference) after the last signal, a price on a
   * level below the middle buys a lot while fewer than 5 are held, and a price
   * on a level above the middle sells the most recent lot. Returns the lots,
   * the last signal time and the opportunities.
   */
  function Decide(lots: seq<(real, real)>, lastSignalTime: nat, trading: bool, levels: seq<real>, t: TradeEvent)
    : (seq<(real, real)>, nat, seq<Opportunity>)
    requires lastSignalTime < U64Modulus && t.eventTime < U64Modulus
  {
    if !(trading && WrappingSub(t.eventTime, lastSignalTime) > SignalGapMs) then (lots, lastSignalTime, [])
    else match FirstNear(levels, t.price)
      case None => (lots, lastSignalTime, [])
      case Some(idx) =>
        var mid := |levels| / 2;
        if idx < mid && |lots| < MaxPositions then
          (lots + [(t.price, LotSize)], t.eventTime, [GridBuy(t, idx)])
        else if idx > mid && lots != [] then
          (lots[..|lots| - 1], t.eventTime, [GridSell(t, lots[|lots| - 1])])
        else (lots, lastSignalTime, [])
  }

  /**
   * At most one signal per call, and only after the time gap; without one
   * nothing changes. A Buy comes from a level below the middle, pushes a lot
   * of 0.0005 at the trade price and never exceeds 5 lots; a Sell comes from a
   * level above the middle and sells the most recent lot's quantity (LIFO).
   */
  lemma DecideProps(lots: seq<(real, real)>, lastSignalTime: nat, trading: bool, levels: seq<real>, t: TradeEvent)
    requires lastSignalTime < U64Modulus && t.eventTime < U64Modulus
    ensures var (r, last, opps) := Decide(lots, lastSignalTime, trading, levels, t);
      && |opps| <= 1
      && (opps == [] ==> r == lots && last == lastSignalTime)
      && (opps != [] ==> trading && WrappingSub(t.eventTime, lastSignalTime) > SignalGapMs && last == t.eventTime
                         && FirstNear(levels, t.price).Some?)
      && (|lots| <= MaxPositions ==> |r| <= MaxPositions)
      && (opps != [] && opps[0].signal.Buy? ==>
            FirstNear(levels, t.price).value < |levels| / 2 && |lots| < MaxPositions && r == lots + [(t.price, LotSize)])
      && (opps != [] && opps[0].signal.Sell? ==>
            FirstNear(levels, t.price).value > |levels| / 2 && lots != []
            && r == lots[..|lots| - 1] && opps[0].signal.quantity == lots[|lots| - 1].1)
  {
  }

  class GridTrading {
    var gridSize: real
    var gridLevels: seq<real>
    var basePrice: real
    var positions: seq<(real, real)>
    var lastSignalTime: nat

    ghost predicate Valid()
      reads this
    {
      && gridSize == DefaultGridSize
      && (gridLevels == [] || gridLevels == GridLevels(basePrice, gridSize))
      && |positions| <= MaxPositions
      && lastSignalTime < U64Modulus
    }

    constructor ()
      ensures Valid()
      ensures gridLevels == [] && basePrice == 0.0 && positions == [] && lastSignalTime == 0
    {
      gridSize := DefaultGridSize;
      gridLevels := [];
      basePrice := 0.0;
      positions := [];
      lastSignalTime := 0;
    }

    /** `setup_grid`: the base becomes `price` and the 11 levels are laid out around it. */
    method SetupGrid(price: real)
      modifies this
      ensures basePrice == price && gridLevels == GridLevels(price, gridSize)
      ensures gridSize == old(gridSize) && positions == old(positions) && lastSignalTime == old(lastSignalTime)
    {
      var levels := [];
      ghost var full := GridLevels(price, gridSize);
      for i: int := -5 to 6
        invariant levels == full[..i + 5]
      {
        assert full[..i + 6] == full[..i + 5] + [GridLevel(price, gridSize, i + 5)];
        assert full[i + 5] == price * (1.0 + (i as real) * gridSize / 100.0);
        levels := levels + [price * (1.0 + (i as real) * gridSize / 100.0)];
        assert levels == full[..i + 5] + [full[i + 5]];
      }
      basePrice := price;
      gridLevels := levels;
    }

    /** `find_grid_level`: the first level within tolerance of `price`, with its index. */
    method FindGridLevel(price: real) returns (found: Option<(nat, real)>)
      ensures found.None? ==> forall j :: 0 <= j < |gridLevels| ==> !Near(price, gridLevels[j])
      ensures found.Some? ==> var (i, level) := found.value;
        i < |gridLevels| && level == gridLevels[i] && Near(price, level)
        && forall j :: 0 <= j < i ==> !Near(price, gridLevels[j])
      ensures found.None? <==> FirstNear(gridLevels, price).None?
      ensures found.Some? ==> found.value.0 == FirstNear(gridLevels, price).value
    {
      for i := 0 to |gridLevels|
        invariant forall j :: 0 <= j < i ==> !Near(price, gridLevels[j])
      {
        var level := gridLevels[i];
        if Div(Abs(price - level), level).Lt(Tolerance) {
          return Some((i, level));
        }
      }
      return None;
    }

    /**
     * `process_trade`: sets the grid up while the base price is 0, then
     * decides and records one data point; the lifecycle is not stepped.
     */
    method ProcessTrade(app: AppState, t: TradeEvent) returns (opps: seq<Opportunity>)
      requires Valid() && app.Valid()
      requires t.eventTime < U64Modulus
      modifies this, app
      ensures Valid() && app.Valid()
      ensures basePrice == if old(basePrice) == 0.0 then t.price else old(basePrice)
      ensures gridLevels == if old(basePrice) == 0.0 then GridLevels(t.price, DefaultGridSize) else old(gridLevels)
      ensures (positions, lastSignalTime, opps) ==
        Decide(old(positions), old(lastSignalTime), app.machine.current == Trading, gridLevels, t)
      ensures app.State() == Recorded(old(app.State()),
        DataPoint(t.eventTime, t.price, t.qty, app.machine.current, ActionOf(opps, "Cancel"), 0.0, Equity(old(app.State()))))
    {
      if basePrice == 0.0 {
        SetupGrid(t.price);
      }
      opps := CheckGrid(app.machine.current == Trading, t);
      app.PushDataPointAt(t.price, t.qty, ActionOf(opps, "Cancel"), 0.0, t.eventTime);
    }

    /** The signal part of `process_trade`, on the current grid. */
    method CheckGrid(trading: bool, t: TradeEvent) returns (opps: seq<Opportunity>)
      requires Valid() && t.eventTime < U64Modulus
      modifies this
      ensures Valid()
      ensures gridSize == old(gridSize) && gridLevels == old(gridLevels) && basePrice == old(basePrice)
      ensures (positions, lastSignalTime, opps) ==
        Decide(old(positions), old(lastSignalTime), trading, gridLevels, t)
    {
      opps := [];
      if trading && WrappingSub(t.eventTime, lastSignalTime) > SignalGapMs {
        var found := FindGridLevel(t.price);
        if found.Some? {
          var (levelIdx, levelPrice) := found.value;
          assert FirstNear(gridLevels, t.price) == Some(levelIdx);
          var midLevel := |gridLevels| / 2;
          if levelIdx < midLevel && |positions| < MaxPositions {
            ghost var lots := positions + [(t.price, LotSize)];
            assert Decide(positions, lastSignalTime, trading, gridLevels, t) == (lots, t.eventTime, [GridBuy(t, levelIdx)]);
            opps := opps + [GridBuy(t, levelIdx)];
            positions := positions + [(t.price, LotSize)];
            lastSignalTime := t.eventTime;
            assert opps == [GridBuy(t, levelIdx)];
          } else if levelIdx > midLevel && positions != [] {
            var lot := positions[|positions| - 1];
            ghost var lots := positions[..|positions| - 1];
            assert Decide(positions, lastSignalTime, trading, gridLevels, t) == (lots, t.eventTime, [GridSell(t, lot)]);
            positions := positions[..|positions| - 1];
            opps := opps + [GridSell(t, lot)];
            lastSignalTime := t.eventTime;
            assert opps == [GridSell(t, lot)];
          }
        }
      }
    }

    /** `process_aggr_trade`: never emits and changes nothing. */
    method ProcessAggrTrade(t: AggTradeEvent) returns (opps: seq<Opportunity>)
      ensures opps == []
    {
      opps := [];
    }

    /** `process_orderbook`: never emits and changes nothing. */
    method ProcessOrderbook(book: OrderBook) returns (opps: seq<Opportunity>)
      ensures opps == []
    {
      opps := [];
    }
  }
}
