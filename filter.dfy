/**
 * The market-data quality filter: it drops duplicate trade ids, events older
 * than the last accepted timestamp and prices that jump too far from the last
 * accepted price, counting each rejection reason.
 */
module Filter {
  import opened Common
  import opened MarketData

  /** Every field of a `DataFilter` except the (fixed) threshold. */
  datatype Snapshot = Snapshot(
    lastTradeId: nat,
    lastAggTradeId: nat,
    lastTimestamp: nat,
    lastPrice: Option<real>,
    totalReceived: nat,
    duplicateCount: nat,
    outOfOrderCount: nat,
    outlierCount: nat)

  /** The state of a filter that has seen nothing. */
  const Fresh := Snapshot(0, 0, 0, None, 0, 0, 0, 0)

  function BadCount(s: Snapshot): nat {
    s.duplicateCount + s.outOfOrderCount + s.outlierCount
  }

  /**
   * The outlier test: `|price - last| / last > threshold` in `f64`, where a
   * zero last price makes any non-zero price an outlier (infinite ratio) and a
   * zero price not one (NaN compares false).
   */
  predicate IsOutlier(price: real, lastPrice: Option<real>, threshold: real) {
    lastPrice.Some? && Div(Abs(price - lastPrice.value), lastPrice.value).Gt(threshold)
  }

  /**
   * The checks shared by trades and aggregated trades after the id test:
   * out-of-order timestamp, then outlier price.
   */
  function CheckTimeAndPrice(s: Snapshot, eventTime: nat, price: real, threshold: real): (Snapshot, bool) {
    if eventTime < s.lastTimestamp && s.lastTimestamp != 0 then
      (s.(outOfOrderCount := s.outOfOrderCount + 1), false)
    else
      var s1 := s.(lastTimestamp := eventTime);
      if IsOutlier(price, s1.lastPrice, threshold) then
        (s1.(outlierCount := s1.outlierCount + 1), false)
      else
        (s1.(lastPrice := Some(price)), true)
  }

  /** `filter_trade` as a function of the filter state. */
  function CheckTrade(s: Snapshot, t: TradeEvent, threshold: real): (Snapshot, bool) {
    if t.tradeId <= s.lastTradeId && s.lastTradeId != 0 then
      (s.(duplicateCount := s.duplicateCount + 1), false)
    else
      CheckTimeAndPrice(s.(lastTradeId := t.tradeId), t.eventTime, t.price, threshold)
  }

  /** `filter_agg_trade` as a function of the filter state. */
  function CheckAggTrade(s: Snapshot, a: AggTradeEvent, threshold: real): (Snapshot, bool) {
    if a.aggregatedTradeId <= s.lastAggTradeId && s.lastAggTradeId != 0 then
      (s.(duplicateCount := s.duplicateCount + 1), false)
    else
      CheckTimeAndPrice(s.(lastAggTradeId := a.aggregatedTradeId), a.eventTime, a.price, threshold)
  }

  /** `should_process` as a function of the filter state. */
  function Step(s: Snapshot, e: MarketEvent, threshold: real): (Snapshot, bool) {
    var counted := s.(totalReceived := s.totalReceived + 1);
    match e
    case Trade(t) => CheckTrade(counted, t, threshold)
    case AggrTrade(a) => CheckAggTrade(counted, a, threshold)
    case _ => (counted, true)
  }

  /** The filter state after a sequence of events. */
  function Run(s: Snapshot, events: seq<MarketEvent>, threshold: real): Snapshot
    decreases |events|
  {
    if events == [] then s else Run(Step(s, events[0], threshold).0, events[1..], threshold)
  }

  /**
   * One `should_process` call: the received counter goes up by exactly one,
   * at most one rejection counter goes up by exactly one, and it does so iff
   * the event is rejected; an order book or depth update passes and changes
   * nothing else.
   */
  lemma StepCounters(s: Snapshot, e: MarketEvent, threshold: real)
    ensures var (s', pass) := Step(s, e, threshold);
      && s'.totalReceived == s.totalReceived + 1
      && s.duplicateCount <= s'.duplicateCount
      && s.outOfOrderCount <= s'.outOfOrderCount
      && s.outlierCount <= s'.outlierCount
      && BadCount(s') == BadCount(s) + (if pass then 0 else 1)
      && ((e.Book? || e.DepthUpdate?) ==> pass && s' == s.(totalReceived := s.totalReceived + 1))
  {
  }

  /**
   * A duplicate id is rejected before anything else and leaves the id,
   * timestamp and price marks untouched; a fresh id is recorded even when the
   * event is then rejected as out-of-order or as an outlier.
   */
  lemma TradeIdHandling(s: Snapshot, t: TradeEvent, threshold: real)
    ensures var (s', pass) := CheckTrade(s, t, threshold);
      if t.tradeId <= s.lastTradeId && s.lastTradeId != 0 then
        !pass && s' == s.(duplicateCount := s.duplicateCount + 1)
      else
        s'.lastTradeId == t.tradeId && s'.duplicateCount == s.duplicateCount
  {
  }

  /**
   * An out-of-order event is rejected without moving `lastTimestamp`; an
   * outlier is rejected without moving `lastPrice`; an accepted event moves
   * both to its own values.
   */
  lemma TimeAndPriceHandling(s: Snapshot, eventTime: nat, price: real, threshold: real)
    ensures var (s', pass) := CheckTimeAndPrice(s, eventTime, price, threshold);
      && (eventTime < s.lastTimestamp && s.lastTimestamp != 0 ==>
            !pass && s' == s.(outOfOrderCount := s.outOfOrderCount + 1))
      && (!(eventTime < s.lastTimestamp && s.lastTimestamp != 0) && IsOutlier(price, s.lastPrice, threshold) ==>
            !pass && s'.lastPrice == s.lastPrice && s'.lastTimestamp == eventTime
            && s'.outlierCount == s.outlierCount + 1)
      && (pass <==> !(eventTime < s.lastTimestamp && s.lastTimestamp != 0) && !IsOutlier(price, s.lastPrice, threshold))
      && (pass ==> s'.lastTimestamp == eventTime && s'.lastPrice == Some(price))
      && s'.lastTradeId == s.lastTradeId && s'.lastAggTradeId == s.lastAggTradeId
  {
  }

  /**
   * Trades and aggregated trades keep separate id marks: a trade never moves
   * the aggregated-trade mark and vice versa, while both share the timestamp
   * and price marks.
   */
  lemma SeparateIdMarks(s: Snapshot, t: TradeEvent, a: AggTradeEvent, threshold: real)
    ensures CheckTrade(s, t, threshold).0.lastAggTradeId == s.lastAggTradeId
    ensures CheckAggTrade(s, a, threshold).0.lastTradeId == s.lastTradeId
  {
  }

  ghost predicate Consistent(s: Snapshot) {
    BadCount(s) <= s.totalReceived
  }

  /**
   * Over any run from any consistent state, the rejection counters together
   * never exceed the number of events received, and the received counter
   * counts every event.
   */
  lemma {:induction false} RunConsistent(s: Snapshot, events: seq<MarketEvent>, threshold: real)
    requires Consistent(s)
    ensures Consistent(Run(s, events, threshold))
    ensures Run(s, events, threshold).totalReceived == s.totalReceived + |events|
    decreases |events|
  {
    if events != [] {
      StepCounters(s, events[0], threshold);
      RunConsistent(Step(s, events[0], threshold).0, events[1..], threshold);
    }
  }

  /** `get_quality_score`: the percentage of received events not rejected. */
  function QualityScore(s: Snapshot): (score: real)
    requires Consistent(s)
    ensures 0.0 <= score <= 100.0
    ensures s.totalReceived == 0 ==> score == 100.0
    ensures s.totalReceived > 0 && BadCount(s) == 0 ==> score == 100.0
    ensures BadCount(s) == s.totalReceived && s.totalReceived > 0 ==> score == 0.0
  {
    if s.totalReceived == 0 then 100.0
    else
      var good := (s.totalReceived - BadCount(s)) as real;
      var total := s.totalReceived as real;
      assert good <= total;
      RatioBound(good, total);
      (good / total) * 100.0
  }

  lemma RatioBound(good: real, total: real)
    requires 0.0 <= good <= total && total > 0.0
    ensures 0.0 <= good / total <= 1.0
  {
    assert good / total * total == good;
  }

  class DataFilter {
    var lastTradeId: nat
    var lastAggTradeId: nat
    var lastTimestamp: nat
    var lastPrice: Option<real>
    const outlierThreshold: real
    var totalReceived: nat
    var duplicateCount: nat
    var outOfOrderCount: nat
    var outlierCount: nat

    function State(): Snapshot
      reads this
    {
      Snapshot(lastTradeId, lastAggTradeId, lastTimestamp, lastPrice,
        totalReceived, duplicateCount, outOfOrderCount, outlierCount)
    }

    ghost predicate Valid()
      reads this
    {
      Consistent(State())
    }

    /** `DataFilter::new`. */
    constructor (threshold: real)
      ensures State() == Fresh && outlierThreshold == threshold && Valid()
    {
      lastTradeId := 0;
      lastAggTradeId := 0;
      lastTimestamp := 0;
      lastPrice := None;
      outlierThreshold := threshold;
      totalReceived := 0;
      duplicateCount := 0;
      outOfOrderCount := 0;
      outlierCount := 0;
    }

    /** `should_process`: count the event, then apply the check for its kind. */
    method ShouldProcess(e: MarketEvent) returns (pass: bool)
      requires Valid()
      modifies this
      ensures Valid()
      ensures (State(), pass) == Step(old(State()), e, outlierThreshold)
    {
      StepCounters(State(), e, outlierThreshold);
      totalReceived := totalReceived + 1;
      match e
      case Trade(t) => pass := FilterTrade(t);
      case AggrTrade(a) => pass := FilterAggTrade(a);
      case _ => pass := true;
    }

    /** `filter_trade`, with its early returns. */
    method FilterTrade(t: TradeEvent) returns (pass: bool)
      modifies this
      ensures (State(), pass) == CheckTrade(old(State()), t, outlierThreshold)
    {
      if t.tradeId <= lastTradeId && lastTradeId != 0 {
        duplicateCount := duplicateCount + 1;
        return false;
      }
      lastTradeId := t.tradeId;
      pass := CheckTimeAndPriceInPlace(t.eventTime, t.price);
    }

    /** `filter_agg_trade`, with its early returns. */
    method FilterAggTrade(a: AggTradeEvent) returns (pass: bool)
      modifies this
      ensures (State(), pass) == CheckAggTrade(old(State()), a, outlierThreshold)
    {
      if a.aggregatedTradeId <= lastAggTradeId && lastAggTradeId != 0 {
        duplicateCount := duplicateCount + 1;
        return false;
      }
      lastAggTradeId := a.aggregatedTradeId;
      pass := CheckTimeAndPriceInPlace(a.eventTime, a.price);
    }

    /** Steps 2 and 3 of both trade checks. */
    method CheckTimeAndPriceInPlace(eventTime: nat, price: real) returns (pass: bool)
      modifies this
      ensures (State(), pass) == CheckTimeAndPrice(old(State()), eventTime, price, outlierThreshold)
    {
      if eventTime < lastTimestamp && lastTimestamp != 0 {
        outOfOrderCount := outOfOrderCount + 1;
        return false;
      }
      lastTimestamp := eventTime;
      if IsOutlier(price, lastPrice, outlierThreshold) {
        outlierCount := outlierCount + 1;
        return false;
      }
      lastPrice := Some(price);
      pass := true;
    }

    /** `get_quality_score`; the counter subtraction cannot underflow. */
    function GetQualityScore(): (score: real)
      reads this
      requires Valid()
      ensures 0.0 <= score <= 100.0
      ensures totalReceived == 0 ==> score == 100.0
    {
      QualityScore(State())
    }
  }
}
