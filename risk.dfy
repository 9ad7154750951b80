/** `RiskManager`: the portfolio risk report and the choice of the trade to execute. */
module Risk {
  import opened Common
  import opened Signals

  /** More opportunities than this at once mark the portfolio as stressed. */
  const CrowdLimit: nat := 5

  /** The portfolio report for a batch of `n` opportunities. */
  function ReportFor(n: nat): (report: RiskReport)
    ensures report.totalRisk == (if n > CrowdLimit then 0.8 else 0.3)
    ensures report.drawdownWarning <==> n > CrowdLimit
    ensures report.leverageRisk == 0.1 && report.recommendedMaxSize == 0.005
  {
    var totalRisk := if n > CrowdLimit then 0.8 else 0.3;
    RiskReport(totalRisk, 0.1, totalRisk > 0.7, 0.005)
  }

  /**
   * `analyze_opportunities`: the report, and a copy of the batch in which each
   * risk score is scaled by 0.8 for a score above 0.8 and then by 1.5 under a
   * drawdown warning; nothing else changes.
   */
  method AnalyzeOpportunities(opportunities: seq<Opportunity>) returns (processed: seq<Opportunity>, report: RiskReport)
    ensures report == ReportFor(|opportunities|)
    ensures |processed| == |opportunities|
    ensures forall i :: 0 <= i < |processed| ==>
      processed[i].(riskScore := opportunities[i].riskScore) == opportunities[i]
    ensures forall i :: 0 <= i < |processed| ==>
      processed[i].riskScore == opportunities[i].riskScore
        * (if opportunities[i].score > 0.8 then 0.8 else 1.0)
        * (if |opportunities| > CrowdLimit then 1.5 else 1.0)
  {
    var totalRisk := if |opportunities| > CrowdLimit then 0.8 else 0.3;
    var leverageRisk := 0.1;
    var drawdownWarning := totalRisk > 0.7;
    processed := opportunities;
    for i := 0 to |processed|
      invariant |processed| == |opportunities|
      invariant forall k :: 0 <= k < |processed| ==> processed[k].(riskScore := opportunities[k].riskScore) == opportunities[k]
      invariant forall k :: 0 <= k < i ==>
        processed[k].riskScore == opportunities[k].riskScore
          * (if opportunities[k].score > 0.8 then 0.8 else 1.0)
          * (if drawdownWarning then 1.5 else 1.0)
      invariant forall k :: i <= k < |processed| ==> processed[k] == opportunities[k]
    {
      var opp := processed[i];
      if opp.score > 0.8 {
        opp := opp.(riskScore := opp.riskScore * 0.8);
      }
      if drawdownWarning {
        opp := opp.(riskScore := opp.riskScore * 1.5);
      }
      processed := processed[i := opp];
    }
    report := RiskReport(totalRisk, leverageRisk, drawdownWarning, 0.005);
  }

  /** Only opportunities whose risk score is below 0.5 may be traded. */
  predicate Acceptable(o: Opportunity) {
    o.riskScore < 0.5
  }

  /**
   * The index `max_by` settles on among the acceptable opportunities: one with
   * the greatest score, the last of several equal ones.
   */
  function BestIndex(opps: seq<Opportunity>): (best: Option<nat>)
    ensures best.None? <==> forall i :: 0 <= i < |opps| ==> !Acceptable(opps[i])
    ensures best.Some? ==> best.value < |opps| && Acceptable(opps[best.value])
    ensures best.Some? ==> forall j :: 0 <= j < |opps| && Acceptable(opps[j]) ==> opps[j].score <= opps[best.value].score
    ensures best.Some? ==> forall j :: best.value < j < |opps| && Acceptable(opps[j]) ==> opps[j].score < opps[best.value].score
  {
    if opps == [] then None
    else
      var n := |opps| - 1;
      var prev := BestIndex(opps[..n]);
      assert forall j :: 0 <= j < n ==> opps[..n][j] == opps[j];
      if !Acceptable(opps[n]) then prev
      else if prev.None? || opps[n].score >= opps[prev.value].score then Some(n)
      else prev
  }

  /** `select_best_trade`: the signal of the best acceptable opportunity, if there is one. */
  function SelectBestTrade(opps: seq<Opportunity>): (signal: Option<Signal>)
    ensures signal.None? <==> forall i :: 0 <= i < |opps| ==> !Acceptable(opps[i])
    ensures signal.Some? ==> exists i :: (0 <= i < |opps| && Acceptable(opps[i]) && opps[i].signal == signal.value
                                         && (forall j :: 0 <= j < |opps| && Acceptable(opps[j]) ==> opps[j].score <= opps[i].score))
  {
    match BestIndex(opps)
    case Some(i) => Some(opps[i].signal)
    case None => None
  }
}
