/** The executive-summary agent (packages/agents/executive_summary_agent.py). */
module ExecutiveSummaryAgent {
  import opened Text
  import opened AgentStates
  import opened DecisionAgent

  function SummaryCitations(s: AgentState): seq<Citation> {
    FirstCitations(s.analysis.citations + s.impact.citations + s.risk.citations + s.decision.citations + s.citations)
  }

  /** `_summary_status` */
  function StatusOf(s: AgentState): SummaryStatus {
    if && s.analysis.status in {NotApplicable, AnalysisInsufficient}
       && s.impact.status in {ImpactNotRequired, ImpactInsufficient}
       && s.risk.status in {RiskNotRequired, RiskInsufficient}
       && s.decision.status in {DecisionNotRequired, DecisionInsufficient}
       && SummaryCitations(s) == []
    then SummaryInsufficient
    else if || s.impact.status in {PartialEstimate, ImpactInsufficient, ImpactNotRequired}
            || s.risk.status in {PartialAssessment, RiskInsufficient, RiskNotRequired}
            || s.decision.status in {NeedsMoreDataStatus, Blocked, DecisionInsufficient}
            || s.analysis.status != AnalysisCompleted
            || s.errors != []
    then PartialSummary
    else Generated
  }

  /** `_headline` */
  function HeadlineOf(status: SummaryStatus, decision: DecisionStatus, recommendation: Recommendation,
                      approval: ApprovalStatus): Headline {
    if status == SummaryInsufficient then InsufficientEvidence
    else if approval == Rejected then NotApproved
    else if approval == RevisionRequested then RevisionWasRequested
    else if approval == Pending then AwaitingApproval
    else if approval == Approved && recommendation == Rollout then RolloutSupportedAndApproved
    else if decision in {NeedsMoreDataStatus, Blocked, DecisionInsufficient}
            || recommendation in {ContinueExperiment, NeedsMoreData} then RolloutNotReady
    else if recommendation == DoNotRollout then DoNotRollOut
    else if recommendation == Rollback then RollbackRecommended
    else if recommendation == Rollout then RolloutSupported
    else SummaryGenerated
  }

  /** `_build_executive_summary` */
  function Build(s: AgentState): Summary {
    match s.result
    case Some(result) =>
      Summary(if result.status in {ResultCompleted, ResultInconclusive} then Generated else SummaryInsufficient,
              AnalyzerHeadline(result.analysisMethod, result.status), NoAutomaticRollout, UnknownConfidence, s.citations)
    case None =>
      var status := StatusOf(s);
      if status == SummaryInsufficient then
        Summary(status, InsufficientEvidence, Recommends(NeedsMoreData), UnknownConfidence, SummaryCitations(s))
      else
        Summary(status, HeadlineOf(status, s.decision.status, s.decision.recommendation, s.approval.status),
                Recommends(s.decision.recommendation), s.decision.confidence, SummaryCitations(s))
  }

  /** `ExecutiveSummaryAgent.run` */
  function Run(s: AgentState): Update {
    var summary := Build(s);
    NO_UPDATE.(summary := Some(summary),
               metrics := Some(s.metrics[NodeKey(ExecutiveSummary) := NodeEntry(false, |summary.citations|)]),
               trace := [TraceEntry(ExecutiveSummary, StartedEvent), TraceEntry(ExecutiveSummary, CompletedEvent)])
  }
}
