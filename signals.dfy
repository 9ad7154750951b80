/** The values strategies hand to the risk manager and the executor. */
module Signals {
  import opened Common

  /** An order intent; a missing price means "at market". */
  datatype Signal =
    | Buy(symbol: string, price: Option<real>, quantity: real)
    | Sell(symbol: string, price: Option<real>, quantity: real)
    | Cancel(symbol: string, orderId: nat)

  /** A scored trading idea; `score` and `riskScore` are nominally in [0, 1]. */
  datatype Opportunity = Opportunity(
    id: string,
    signal: Signal,
    score: real,
    riskScore: real,
    reason: string,
    timestamp: nat)

  datatype RiskReport = RiskReport(
    totalRisk: real,
    leverageRisk: real,
    drawdownWarning: bool,
    recommendedMaxSize: real)

  /**
   * The label recorded with a dashboard data point: the kind of the first
   * opportunity of a call, if any. `otherwise` is the label a strategy uses for
   * a Cancel ("Cancel" or "Hold", depending on the strategy).
   */
  function ActionOf(opps: seq<Opportunity>, otherwise: string): (action: Option<string>)
    ensures action.None? <==> opps == []
  {
    if opps == [] then None
    else match opps[0].signal
      case Buy(_, _, _) => Some("Buy")
      case Sell(_, _, _) => Some("Sell")
      case Cancel(_, _) => Some(otherwise)
  }
}
