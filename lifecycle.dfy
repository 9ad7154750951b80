/**
 * The lifecycle protocol every market-data-driven strategy runs on the shared
 * state machine before deciding anything.
 */
module Lifecycle {
  import opened StateMachine
  import opened Web

  /**
   * On a trade: Booting -> Accumulating, Accumulating -> Trading once the
   * machine is stable at clock reading `now`; the dashboard is untouched.
   */
  method StepOnTrade(app: AppState, now: nat)
    requires app.Valid()
    modifies app.machine, app.machine.transitions
    ensures app.Valid()
    ensures app.machine.current == OnMarketData(old(app.machine.current), old(app.machine.IsStable(now)))
  {
    var machine := app.machine;
    if machine.current == Booting {
      machine.TransitionTo(Accumulating, now);
    } else if machine.current == Accumulating && machine.IsStable(now) {
      machine.TransitionTo(Trading, now);
    }
  }

  /** On an order book: only Booting -> Accumulating. */
  method StepOnBook(app: AppState, now: nat)
    requires app.Valid()
    modifies app.machine, app.machine.transitions
    ensures app.Valid()
    ensures app.machine.current == OnOrderBook(old(app.machine.current))
  {
    var machine := app.machine;
    if machine.current == Booting {
      machine.TransitionTo(Accumulating, now);
    }
  }
}
