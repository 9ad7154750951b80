/**
 * The integer and PnL bookkeeping of one (symbol, strategy) backtest run in
 * `execute_isolated_backtest`. The strategy's opportunities and the simulated
 * executor's realized PnL for each of them are inputs (`Fill`s), one list per
 * historical trade.
 */
module Backtest {
  import opened Common
  import opened Signals
  import opened StateMachine
  import opened Web

  /** `max(n / 10, 1)`: a progress event every tenth of the run. */
  function ProgressInterval(n: nat): (p: nat)
    ensures p >= 1 && p >= n / 10
    ensures p == 1 || p == n / 10
  {
    if n / 10 > 1 then n / 10 else 1
  }

  /** `max(n / 2000, 1)`: about 2000 recorded data points per run. */
  function SampleRate(n: nat): (r: nat)
    ensures r >= 1 && r >= n / 2000
    ensures r == 1 || r == n / 2000
  {
    if n / 2000 > 1 then n / 2000 else 1
  }

  /** Fast mode only looks at every tenth trade. */
  const FastSkip: nat := 10

  predicate Processed(idx: nat, fastMode: bool) {
    !fastMode || idx % FastSkip == 0
  }

  /** One executed opportunity: its signal and the PnL the executor realized. */
  datatype Fill = Fill(signal: Signal, pnl: real)

  /** The 0.1% fee charged against a Buy or Sell at the trade's price. */
  function FeeOf(signal: Signal, price: real): real {
    match signal
    case Buy(_, _, quantity) => price * quantity * 0.001
    case Sell(_, _, quantity) => price * quantity * 0.001
    case Cancel(_, _) => 0.0
  }

  /**
   * The bookkeeping the loop updates: the first four live in `AppState`, the
   * rest are locals of the run.
   */
  datatype Tally = Tally(
    totalTrades: nat,
    winTrades: nat,
    lossTrades: nat,
    realizedPnl: real,
    peakPnl: real,
    maxDrawdown: real,
    totalFees: real,
    grossProfit: real,
    grossLoss: real,
    tradePnls: seq<real>)

  /** The bookkeeping for one executed opportunity. */
  function ApplyFill(t: Tally, f: Fill, price: real): Tally {
    var fee := FeeOf(f.signal, price);
    var realized := t.realizedPnl + (f.pnl - fee);
    var counted := t.(totalTrades := t.totalTrades + 1, realizedPnl := realized, totalFees := t.totalFees + fee);
    var classified :=
      if f.pnl > 0.0 then
        counted.(winTrades := t.winTrades + 1, tradePnls := t.tradePnls + [f.pnl - fee], grossProfit := t.grossProfit + f.pnl)
      else if f.pnl < 0.0 then
        counted.(lossTrades := t.lossTrades + 1, tradePnls := t.tradePnls + [f.pnl - fee], grossLoss := t.grossLoss + Abs(f.pnl))
      else counted;
    var peak := if realized > t.peakPnl then realized else t.peakPnl;
    var drawdown := peak - realized;
    classified.(peakPnl := peak, maxDrawdown := if drawdown > t.maxDrawdown then drawdown else t.maxDrawdown)
  }

  /** The bookkeeping for the opportunities of one trade, in order. */
  function ApplyFills(t: Tally, fills: seq<Fill>, price: real): Tally
    decreases |fills|
  {
    if fills == [] then t else ApplyFill(ApplyFills(t, fills[..|fills| - 1], price), fills[|fills| - 1], price)
  }

  /** The bookkeeping after the loop has visited trades `0 .. k-1`. */
  function TallyUpTo(t0: Tally, prices: seq<real>, fills: seq<seq<Fill>>, fastMode: bool, k: nat): Tally
    requires k <= |prices| == |fills|
  {
    if k == 0 then t0
    else
      var t := TallyUpTo(t0, prices, fills, fastMode, k - 1);
      if Processed(k - 1, fastMode) then ApplyFills(t, fills[k - 1], prices[k - 1]) else t
  }

  /**
   * What the strategy's `process_trade` records for one visited trade, at that
   * trade's price: the volume, the action label, the spread it remembers and
   * the timestamp (every strategy of this model records exactly one point per
   * trade).
   */
  datatype Recording = Recording(volume: real, action: Option<string>, spread: real, tsMs: nat)

  /**
   * The dashboard after the strategy has recorded its point for each visited
   * trade among `0 .. k-1`. Each point carries the trade's price, the machine
   * state `state` and the equity of that moment: the initial balance plus the
   * PnL booked for the trades before it.
   */
  function RecordedUpTo(d: Dashboard, state: SystemState, prices: seq<real>, recordings: seq<Recording>,
                        fills: seq<seq<Fill>>, fastMode: bool, k: nat): Dashboard
    requires k <= |prices| == |recordings| == |fills|
  {
    if k == 0 then d
    else
      var prev := RecordedUpTo(d, state, prices, recordings, fills, fastMode, k - 1);
      if Processed(k - 1, fastMode) then
        var rec := recordings[k - 1];
        var pnl := TallyUpTo(StartTally(d), prices, fills, fastMode, k - 1).realizedPnl;
        Recorded(prev, DataPoint(rec.tsMs, prices[k - 1], rec.volume, state, rec.action, rec.spread,
          d.initialBalance + pnl))
      else prev
  }

  /** One step of `RecordedUpTo`: a skipped trade records nothing, a visited one records its point. */
  lemma RecordedUpToStep(d: Dashboard, state: SystemState, prices: seq<real>, recordings: seq<Recording>,
                         fills: seq<seq<Fill>>, fastMode: bool, k: nat, pnl: real)
    requires k < |prices| == |recordings| == |fills|
    requires pnl == TallyUpTo(StartTally(d), prices, fills, fastMode, k).realizedPnl
    ensures var prev := RecordedUpTo(d, state, prices, recordings, fills, fastMode, k);
      RecordedUpTo(d, state, prices, recordings, fills, fastMode, k + 1)
      == if Processed(k, fastMode)
        then Recorded(prev, DataPoint(recordings[k].tsMs, prices[k], recordings[k].volume, state,
          recordings[k].action, recordings[k].spread, d.initialBalance + pnl))
        else prev
  {
  }

  /** The number of trades among `0 .. k-1` the loop visits. */
  function VisitedUpTo(fastMode: bool, k: nat): nat {
    if k == 0 then 0 else VisitedUpTo(fastMode, k - 1) + (if Processed(k - 1, fastMode) then 1 else 0)
  }

  /** Every trade is visited in normal mode; one in ten, rounded up, in fast mode. */
  lemma {:induction false} VisitedUpToCount(fastMode: bool, k: nat)
    ensures VisitedUpTo(fastMode, k) == if fastMode then (k + FastSkip - 1) / FastSkip else k
  {
    if k > 0 {
      VisitedUpToCount(fastMode, k - 1);
      if fastMode {
        var q, r := (k - 1) / FastSkip, (k - 1) % FastSkip;
        assert k - 1 == q * FastSkip + r;
        if r == 0 {
          assert (k + FastSkip - 1) / FastSkip == q + 1;
        } else {
          assert (k + FastSkip - 1) / FastSkip == q + 1;
          assert (k - 1 + FastSkip - 1) / FastSkip == q + 1;
        }
      }
    }
  }

  /**
   * Recording only moves the history and the point counter: the counter
   * advances by one per visited trade, and a history within `maxHistory`
   * stays within it.
   */
  lemma {:induction false} RecordedUpToProps(d: Dashboard, state: SystemState, prices: seq<real>,
                                             recordings: seq<Recording>, fills: seq<seq<Fill>>, fastMode: bool, k: nat)
    requires k <= |prices| == |recordings| == |fills|
    ensures var r := RecordedUpTo(d, state, prices, recordings, fills, fastMode, k);
      && r.(history := d.history, dataPointCounter := d.dataPointCounter) == d
      && r.dataPointCounter == d.dataPointCounter + VisitedUpTo(fastMode, k)
      && (|d.history| <= d.maxHistory ==> |r.history| <= d.maxHistory)
  {
    if k > 0 {
      RecordedUpToProps(d, state, prices, recordings, fills, fastMode, k - 1);
    }
  }

  /** The trade indices `0 .. k-1` at which a progress event is sent. */
  function ProgressUpTo(n: nat, fastMode: bool, k: nat): seq<nat> {
    if k == 0 then []
    else
      var idx := k - 1;
      ProgressUpTo(n, fastMode, idx)
        + (if Processed(idx, fastMode) && idx > 0 && idx % ProgressInterval(n) == 0 then [idx] else [])
  }

  /** The number of opportunities the loop executes among trades `0 .. k-1`. */
  function ExecutedUpTo(fills: seq<seq<Fill>>, fastMode: bool, k: nat): nat
    requires k <= |fills|
  {
    if k == 0 then 0
    else ExecutedUpTo(fills, fastMode, k - 1) + (if Processed(k - 1, fastMode) then |fills[k - 1]| else 0)
  }

  ghost predicate Sane(t: Tally) {
    t.winTrades + t.lossTrades <= t.totalTrades && t.maxDrawdown >= 0.0 && t.peakPnl >= 0.0
  }

  /**
   * One executed opportunity counts one trade, a win only for positive PnL and
   * a loss only for negative PnL; the peak never decreases and ends at least
   * the running PnL, and the maximum drawdown never decreases and covers the
   * current drawdown.
   */
  lemma ApplyFillProps(t: Tally, f: Fill, price: real)
    ensures var t' := ApplyFill(t, f, price);
      && t'.totalTrades == t.totalTrades + 1
      && t'.winTrades == t.winTrades + (if f.pnl > 0.0 then 1 else 0)
      && t'.lossTrades == t.lossTrades + (if f.pnl < 0.0 then 1 else 0)
      && t'.peakPnl >= t.peakPnl && t'.peakPnl >= t'.realizedPnl
      && t'.maxDrawdown >= t.maxDrawdown && t'.maxDrawdown >= t'.peakPnl - t'.realizedPnl
      && (Sane(t) ==> Sane(t'))
  {
  }

  /** The properties of `ApplyFillProps`, over all opportunities of one trade. */
  lemma {:induction false} ApplyFillsProps(t: Tally, fills: seq<Fill>, price: real)
    requires Sane(t)
    ensures var t' := ApplyFills(t, fills, price);
      Sane(t') && t'.totalTrades == t.totalTrades + |fills|
      && t'.peakPnl >= t.peakPnl && t'.maxDrawdown >= t.maxDrawdown
    decreases |fills|
  {
    if fills != [] {
      var prefix := fills[..|fills| - 1];
      ApplyFillsProps(t, prefix, price);
      ApplyFillProps(ApplyFills(t, prefix, price), fills[|fills| - 1], price);
    }
  }

  /**
   * Over a whole run from a sane start: wins plus losses never exceed the
   * trades counted; the trade counter grows by exactly the opportunities of
   * the visited trades; and the peak and the maximum drawdown never decrease
   * from one visited prefix to a longer one.
   */
  lemma {:induction false} TallyUpToProps(t0: Tally, prices: seq<real>, fills: seq<seq<Fill>>, fastMode: bool, j: nat, k: nat)
    requires Sane(t0) && j <= k <= |prices| == |fills|
    ensures var tj := TallyUpTo(t0, prices, fills, fastMode, j);
      var tk := TallyUpTo(t0, prices, fills, fastMode, k);
      && Sane(tk)
      && tk.totalTrades == t0.totalTrades + ExecutedUpTo(fills, fastMode, k)
      && tj.peakPnl <= tk.peakPnl && tj.maxDrawdown <= tk.maxDrawdown
    decreases k
  {
    if k > 0 {
      if j == k {
        TallyUpToProps(t0, prices, fills, fastMode, k - 1, k - 1);
      } else {
        TallyUpToProps(t0, prices, fills, fastMode, j, k - 1);
      }
      if Processed(k - 1, fastMode) {
        ApplyFillsProps(TallyUpTo(t0, prices, fills, fastMode, k - 1), fills[k - 1], prices[k - 1]);
      }
    }
  }

  /** Fast mode executes nothing for trades whose index is not a multiple of ten. */
  lemma {:induction false} FastModeSkips(fills: seq<seq<Fill>>, k: nat)
    requires k <= |fills|
    requires forall i :: 0 <= i < k && i % FastSkip == 0 ==> fills[i] == []
    ensures ExecutedUpTo(fills, true, k) == 0
  {
    if k > 0 {
      FastModeSkips(fills, k - 1);
    }
  }

  /**
   * The setup before the loop: clear the dashboard, allow 10 000 points,
   * force the machine to Trading and mark trading on.
   */
  method PrepareRun(app: AppState, now: nat)
    requires app.Valid()
    modifies app, app.machine, app.machine.transitions
    ensures app.Valid()
    ensures app.State() == old(app.State()).(history := [], totalTrades := 0, winTrades := 0,
      lossTrades := 0, realizedPnl := 0.0, maxHistory := 10000, isTrading := true)
    ensures app.machine.current == Trading
  {
    app.ClearAllData(now);
    app.maxHistory := 10000;
    app.machine.TransitionTo(Trading, now);
    app.isTrading := true;
  }

  /**
   * Books one executed opportunity: the fee, the trade counters in the app,
   * the run's gross profit or loss and the running peak and drawdown.
   */
  method BookFill(app: AppState, fill: Fill, price: real, peakPnl: real, maxDrawdown: real, totalFees: real,
                  grossProfit: real, grossLoss: real, tradePnls: seq<real>)
    returns (peakPnl': real, maxDrawdown': real, totalFees': real, grossProfit': real, grossLoss': real,
             tradePnls': seq<real>)
    requires app.Valid()
    modifies app
    ensures app.Valid()
    ensures Tally(app.totalTrades, app.winTrades, app.lossTrades, app.realizedPnl, peakPnl', maxDrawdown',
        totalFees', grossProfit', grossLoss', tradePnls')
      == ApplyFill(Tally(old(app.totalTrades), old(app.winTrades), old(app.lossTrades), old(app.realizedPnl),
        peakPnl, maxDrawdown, totalFees, grossProfit, grossLoss, tradePnls), fill, price)
    ensures app.State() == old(app.State()).(totalTrades := app.totalTrades, winTrades := app.winTrades,
      lossTrades := app.lossTrades, realizedPnl := app.realizedPnl)
  {
    peakPnl', maxDrawdown', grossProfit', grossLoss', tradePnls' := peakPnl, maxDrawdown, grossProfit, grossLoss, tradePnls;
    var fee := FeeOf(fill.signal, price);
    totalFees' := totalFees + fee;
    app.totalTrades := app.totalTrades + 1;
    app.realizedPnl := app.realizedPnl + (fill.pnl - fee);
    if fill.pnl > 0.0 {
      app.winTrades := app.winTrades + 1;
      tradePnls' := tradePnls + [fill.pnl - fee];
      grossProfit' := grossProfit + fill.pnl;
    } else if fill.pnl < 0.0 {
      app.lossTrades := app.lossTrades + 1;
      tradePnls' := tradePnls + [fill.pnl - fee];
      grossLoss' := grossLoss + Abs(fill.pnl);
    }
    var currentTotalPnl := app.realizedPnl;
    if currentTotalPnl > peakPnl' {
      peakPnl' := currentTotalPnl;
    }
    var drawdown := peakPnl' - currentTotalPnl;
    if drawdown > maxDrawdown' {
      maxDrawdown' := drawdown;
    }
  }

  /** The tally the loop starts from: the app's counters and zeroed locals. */
  function StartTally(d: Dashboard): Tally {
    Tally(d.totalTrades, d.winTrades, d.lossTrades, d.realizedPnl, 0.0, 0.0, 0.0, 0.0, 0.0, [])
  }

  /** Books, in order, every opportunity executed for one trade. */
  method BookFills(app: AppState, opps: seq<Fill>, price: real, peakPnl: real, maxDrawdown: real,
                   totalFees: real, grossProfit: real, grossLoss: real, tradePnls: seq<real>)
    returns (peakPnl': real, maxDrawdown': real, totalFees': real, grossProfit': real, grossLoss': real,
             tradePnls': seq<real>)
    requires app.Valid()
    modifies app
    ensures app.Valid()
    ensures Tally(app.totalTrades, app.winTrades, app.lossTrades, app.realizedPnl, peakPnl', maxDrawdown',
        totalFees', grossProfit', grossLoss', tradePnls')
      == ApplyFills(Tally(old(app.totalTrades), old(app.winTrades), old(app.lossTrades), old(app.realizedPnl),
        peakPnl, maxDrawdown, totalFees, grossProfit, grossLoss, tradePnls), opps, price)
    ensures app.State() == old(app.State()).(totalTrades := app.totalTrades, winTrades := app.winTrades,
      lossTrades := app.lossTrades, realizedPnl := app.realizedPnl)
  {
    ghost var before := Tally(app.totalTrades, app.winTrades, app.lossTrades, app.realizedPnl, peakPnl,
      maxDrawdown, totalFees, grossProfit, grossLoss, tradePnls);
    peakPnl', maxDrawdown', totalFees', grossProfit', grossLoss', tradePnls' :=
      peakPnl, maxDrawdown, totalFees, grossProfit, grossLoss, tradePnls;
    for j := 0 to |opps|
      invariant app.Valid()
      invariant Tally(app.totalTrades, app.winTrades, app.lossTrades, app.realizedPnl, peakPnl', maxDrawdown',
        totalFees', grossProfit', grossLoss', tradePnls') == ApplyFills(before, opps[..j], price)
      invariant app.State() == old(app.State()).(totalTrades := app.totalTrades, winTrades := app.winTrades,
        lossTrades := app.lossTrades, realizedPnl := app.realizedPnl)
    {
      assert opps[..j + 1][..j] == opps[..j];
      peakPnl', maxDrawdown', totalFees', grossProfit', grossLoss', tradePnls' :=
        BookFill(app, opps[j], price, peakPnl', maxDrawdown', totalFees', grossProfit', grossLoss', tradePnls');
    }
    assert opps[..|opps|] == opps;
  }

  /**
   * The strategy records its point for one visited trade into an app whose
   * recording fields (history, counter, sampling, capacity and initial
   * balance) are those of `prev`: only the history and the counter move.
   */
  method RecordTrade(app: AppState, ghost prev: Dashboard, price: real, rec: Recording)
    requires app.Valid()
    requires app.history == prev.history && app.dataPointCounter == prev.dataPointCounter
    requires app.sampleRate == prev.sampleRate && app.maxHistory == prev.maxHistory
    requires app.initialBalance == prev.initialBalance
    modifies app
    ensures app.Valid()
    ensures var r := Recorded(prev, DataPoint(rec.tsMs, price, rec.volume, app.machine.current, rec.action,
        rec.spread, prev.initialBalance + app.realizedPnl));
      app.history == r.history && app.dataPointCounter == r.dataPointCounter
    ensures app.State() == old(app.State()).(history := app.history, dataPointCounter := app.dataPointCounter)
  {
    ghost var p := DataPoint(rec.tsMs, price, rec.volume, app.machine.current, rec.action, rec.spread,
      prev.initialBalance + app.realizedPnl);
    assert app.PointAt(price, rec.volume, rec.action, rec.spread, rec.tsMs) == p;
    app.PushDataPointAt(price, rec.volume, rec.action, rec.spread, rec.tsMs);
  }

  /**
   * The app agrees with dashboard `d0` except for the booked counters and
   * with `r` on the recorded history and point counter.
   */
  ghost predicate Tracks(app: AppState, d0: Dashboard, r: Dashboard)
    reads app, app.machine
  {
    && app.history == r.history && app.dataPointCounter == r.dataPointCounter
    && app.State() == d0.(history := app.history, dataPointCounter := app.dataPointCounter,
      totalTrades := app.totalTrades, winTrades := app.winTrades,
      lossTrades := app.lossTrades, realizedPnl := app.realizedPnl)
  }

  /**
   * One visited trade of the loop: the strategy records its point, then every
   * opportunity executed for the trade is booked.
   */
  method VisitTrade(app: AppState, ghost d0: Dashboard, ghost state: SystemState, prices: seq<real>,
                    recordings: seq<Recording>, fills: seq<seq<Fill>>, fastMode: bool, idx: nat,
                    peakPnl: real, maxDrawdown: real, totalFees: real, grossProfit: real, grossLoss: real,
                    tradePnls: seq<real>)
    returns (peakPnl': real, maxDrawdown': real, totalFees': real, grossProfit': real, grossLoss': real,
             tradePnls': seq<real>)
    requires app.Valid() && app.machine.current == state
    requires idx < |prices| == |recordings| == |fills| && Processed(idx, fastMode)
    requires Tally(app.totalTrades, app.winTrades, app.lossTrades, app.realizedPnl, peakPnl, maxDrawdown,
      totalFees, grossProfit, grossLoss, tradePnls) == TallyUpTo(StartTally(d0), prices, fills, fastMode, idx)
    requires Tracks(app, d0, RecordedUpTo(d0, state, prices, recordings, fills, fastMode, idx))
    modifies app
    ensures app.Valid() && app.machine.current == state
    ensures Tally(app.totalTrades, app.winTrades, app.lossTrades, app.realizedPnl, peakPnl', maxDrawdown',
      totalFees', grossProfit', grossLoss', tradePnls') == TallyUpTo(StartTally(d0), prices, fills, fastMode, idx + 1)
    ensures Tracks(app, d0, RecordedUpTo(d0, state, prices, recordings, fills, fastMode, idx + 1))
  {
    ghost var prev := RecordedUpTo(d0, state, prices, recordings, fills, fastMode, idx);
    RecordedUpToProps(d0, state, prices, recordings, fills, fastMode, idx);
    RecordedUpToStep(d0, state, prices, recordings, fills, fastMode, idx, app.realizedPnl);
    RecordTrade(app, prev, prices[idx], recordings[idx]);
    peakPnl', maxDrawdown', totalFees', grossProfit', grossLoss', tradePnls' :=
      BookFills(app, fills[idx], prices[idx], peakPnl, maxDrawdown, totalFees, grossProfit, grossLoss, tradePnls);
  }

  /**
   * The backtest loop over `n` historical trades: sets the sample rate,
   * visits every trade (every tenth in fast mode), reports progress, records
   * the strategy's data point for the visited trade and then books every
   * opportunity executed for it into the app's counters and the run's locals.
   */
  method RunLoop(app: AppState, prices: seq<real>, recordings: seq<Recording>, fills: seq<seq<Fill>>,
                 fastMode: bool)
    returns (result: Tally, progress: seq<nat>)
    requires app.Valid() && |prices| == |recordings| == |fills|
    modifies app
    ensures app.Valid()
    ensures result == TallyUpTo(StartTally(old(app.State())), prices, fills, fastMode, |prices|)
    ensures progress == ProgressUpTo(|prices|, fastMode, |prices|)
    ensures app.State() == RecordedUpTo(old(app.State()).(sampleRate := SampleRate(|prices|)),
        old(app.machine.current), prices, recordings, fills, fastMode, |prices|)
      .(totalTrades := result.totalTrades, winTrades := result.winTrades,
        lossTrades := result.lossTrades, realizedPnl := result.realizedPnl)
  {
    var n := |prices|;
    var progressInterval := ProgressInterval(n);
    app.sampleRate := SampleRate(n);
    ghost var d0 := app.State();
    ghost var state := app.machine.current;
    ghost var t0 := StartTally(old(app.State()));
    assert StartTally(d0) == t0;
    var peakPnl, maxDrawdown, totalFees, grossProfit, grossLoss := 0.0, 0.0, 0.0, 0.0, 0.0;
    var tradePnls: seq<real> := [];
    progress := [];
    for idx := 0 to n
      invariant app.Valid() && app.machine.current == state
      invariant Tally(app.totalTrades, app.winTrades, app.lossTrades, app.realizedPnl, peakPnl, maxDrawdown,
        totalFees, grossProfit, grossLoss, tradePnls) == TallyUpTo(t0, prices, fills, fastMode, idx)
      invariant progress == ProgressUpTo(n, fastMode, idx)
      invariant Tracks(app, d0, RecordedUpTo(d0, state, prices, recordings, fills, fastMode, idx))
    {
      if fastMode && idx % FastSkip != 0 {
        RecordedUpToStep(d0, state, prices, recordings, fills, fastMode, idx, app.realizedPnl);
        continue;
      }
      if idx > 0 && idx % progressInterval == 0 {
        progress := progress + [idx];
      }
      peakPnl, maxDrawdown, totalFees, grossProfit, grossLoss, tradePnls :=
        VisitTrade(app, d0, state, prices, recordings, fills, fastMode, idx,
          peakPnl, maxDrawdown, totalFees, grossProfit, grossLoss, tradePnls);
    }
    RecordedUpToProps(d0, state, prices, recordings, fills, fastMode, n);
    result := Tally(app.totalTrades, app.winTrades, app.lossTrades, app.realizedPnl, peakPnl, maxDrawdown,
      totalFees, grossProfit, grossLoss, tradePnls);
  }
}
