/**
 The shared state of the agent workflow (packages/agents/state.py): its records, the initial
 state, and the reducers by which a node's update is folded into it. Timestamps, latencies, run
 identifiers and prose fields are left out.
 */
module AgentStates {
  import opened Text
  import opened MetricStore

  // ---------------------------------------------------------------- enumerations

  datatype Node =
    | Planner | Retrieval | ExperimentAnalysis | BusinessImpact | RiskAssessment
    | DecisionMaking | HumanApproval | ExecutiveSummary

  /** `PHASE2_WORKFLOW_NODES` */
  const NODE_ORDER: seq<Node> :=
    [Planner, Retrieval, ExperimentAnalysis, BusinessImpact, RiskAssessment, DecisionMaking, HumanApproval, ExecutiveSummary]

  datatype Intent =
    | GeneralQuestion | ExperimentLookup | DecisionSupport | RiskQuestion | ImpactQuestion
    | SummaryRequest | UnknownIntent

  datatype AnalysisStatus = NotApplicable | AnalysisCompleted | AnalysisInsufficient
  datatype ImpactStatus = Estimated | PartialEstimate | ImpactInsufficient | ImpactNotRequired
  datatype RiskStatus = Assessed | PartialAssessment | RiskInsufficient | RiskNotRequired
  datatype RiskLevel = LowRisk | MediumRisk | HighRisk | UnknownRisk
  datatype Severity = LowSeverity | MediumSeverity | HighSeverity | OtherSeverity(name: string)
  datatype RiskCategory = GuardrailRisk | DataQualityRisk | StatisticalRisk | RolloutRisk | UserOrBusinessRisk | AnalyzerRisk
  datatype DecisionStatus = Decided | NeedsMoreDataStatus | Blocked | DecisionNotRequired | DecisionInsufficient
  datatype Recommendation = Rollout | DoNotRollout | ContinueExperiment | Rollback | NeedsMoreData | UnknownRecommendation
  datatype Confidence = High | Medium | Low | UnknownConfidence
  datatype ApprovalStatus = NotRequested | SkippedApproval | Pending | Approved | Rejected | RevisionRequested
  datatype SummaryStatus = Generated | PartialSummary | SummaryInsufficient | SummaryNotRequired
  datatype ResultStatus = ResultCompleted | ResultInconclusive | OtherResult

  // ---------------------------------------------------------------- records

  datatype Citation = Citation(documentId: string, experimentId: string, section: string, quote: string)

  datatype Chunk = Chunk(experimentId: string, content: string)

  datatype Comparison = Comparison(
    metricName: string, controlValue: real, treatmentValue: real, absoluteDelta: real,
    relativeLift: Option<real>, pValue: Option<real>)

  /** Empty `control`, `treatment`, comparison and significance records are `None`. */
  datatype Analysis = Analysis(
    status: AnalysisStatus, experimentId: string, primaryMetric: string,
    control: Option<real>, treatment: Option<real>, comparison: Option<Comparison>,
    observedLift: Option<real>, significance: Option<real>, guardrails: seq<Comparison>,
    limitations: seq<string>, citations: seq<Citation>, confidence: Confidence)

  datatype Metadata = Metadata(primaryMetric: string, imperfections: seq<string>, businessDecision: string)

  /** A reported annual amount; `None` when the reported value is not a number. */
  datatype AnnualAmount = AnnualAmount(amount: Option<real>)

  datatype Impact = Impact(
    status: ImpactStatus, baseline: Option<real>, treatment: Option<real>,
    absoluteLift: Option<real>, relativeLift: Option<real>, annualized: Option<AnnualAmount>,
    confidence: Confidence, limitations: seq<string>, citations: seq<Citation>)

  datatype RiskCode =
    | AmbiguousRequest | MissingIdentifier | MissingPrimaryMetric | MissingValues | MissingSignificance
    | LowOrUnknownConfidence | NegativeOrUnclearLift(negative: bool) | GuardrailDeterioration | InsufficientRetrieval
    | PartialImpact | InsufficientImpact | DataQualityConcern | RolloutConstraint
    | AnalyzerCode(name: string)

  datatype RiskFactor = RiskFactor(code: RiskCode, severity: Severity, category: RiskCategory, detail: string)

  datatype Risk = Risk(
    status: RiskStatus, level: RiskLevel, score: Option<int>, factors: seq<RiskFactor>,
    guardrailConcerns: seq<string>, dataQualityConcerns: seq<string>, statisticalConcerns: seq<string>,
    rolloutConcerns: seq<string>, userConcerns: seq<string>,
    limitations: seq<string>, citations: seq<Citation>, confidence: Confidence)

  datatype Decision = Decision(
    status: DecisionStatus, recommendation: Recommendation, confidence: Confidence,
    blockingIssues: seq<string>, approvalRequired: bool, citations: seq<Citation>, limitations: seq<string>)

  datatype Approval = Approval(status: ApprovalStatus, required: bool, feedback: string, actor: Option<string>)

  /** The caller's approval record: fields may be missing, or the value may not be a mapping at all. */
  datatype ApprovalInput =
    | NotAMapping
    | Mapping(status: Option<string>, feedback: Option<string>, actor: Option<string>)

  datatype Headline =
    | NoHeadline
    | InsufficientEvidence | NotApproved | RevisionWasRequested | AwaitingApproval | RolloutSupportedAndApproved
    | RolloutNotReady | DoNotRollOut | RollbackRecommended | RolloutSupported | SummaryGenerated
    | AnalyzerHeadline(analysisMethod: string, status: ResultStatus)

  /** The recommendation text of a summary: none yet, a decision's, or the structured path's fixed refusal. */
  datatype RecommendationText = NoText | Recommends(recommendation: Recommendation) | NoAutomaticRollout

  datatype Summary = Summary(
    status: SummaryStatus, headline: Headline, recommendation: RecommendationText,
    confidence: Confidence, citations: seq<Citation>)

  datatype Diagnostic = Diagnostic(code: string, severity: Severity, message: string)

  datatype Artifact = Artifact(id: string, kind: string)

  /** Where a rejected proposal was made: at a node, or in the response. */
  datatype IntegrityFinding = IntegrityFinding(code: string, author: Author)

  /** The structured analyzer's result envelope. */
  datatype Envelope = Envelope(
    analysisId: string, analysisMethod: string, status: ResultStatus, diagnostics: seq<Diagnostic>,
    artifacts: seq<Artifact>, findings: seq<IntegrityFinding>)

  datatype AnalysisRequest = AnalysisRequest(experimentId: string, refusal: bool, business: bool)

  datatype TraceEvent = PlannedEvent | StartedEvent | CompletedEvent | FailedEvent | SkippedEvent
  datatype TraceEntry = TraceEntry(node: Node, event: TraceEvent)

  /** The name an error or a tool call is logged under: a node of the workflow, or any other name. */
  datatype Author = Known(node: Node) | Foreign(name: string)

  datatype ErrorRecord = ErrorRecord(code: string, message: string, author: Author)
  datatype ToolCall = ToolCall(toolName: string, author: Author, failed: bool)

  /** Metric keys: the planner's own keys and one key per agent node. */
  datatype MetricKey = PlannerKey(name: string) | NodeKey(node: Node)
  datatype MetricEntry = PlannerEntry(value: string) | NodeEntry(failed: bool, citationCount: nat)

  // ---------------------------------------------------------------- state

  datatype AgentState = AgentState(
    request: Option<AnalysisRequest>, result: Option<Envelope>,
    intent: Intent, requiredAgents: seq<Node>,
    experimentIds: seq<string>, hints: seq<string>,
    chunks: seq<Chunk>, citations: seq<Citation>,
    analysis: Analysis, metadata: Metadata, stateMetrics: seq<Metric>,
    impact: Impact, risk: Risk, decision: Decision, summary: Summary,
    approvalInput: ApprovalInput, approval: Approval,
    toolCalls: seq<ToolCall>, metrics: map<MetricKey, MetricEntry>,
    errors: seq<ErrorRecord>, trace: seq<TraceEntry>)

  const NO_ANALYSIS :=
    Analysis(NotApplicable, "", "", None, None, None, None, None, [], [], [], Low)
  const NO_IMPACT := Impact(ImpactNotRequired, None, None, None, None, None, Low, [], [])
  const NO_RISK := Risk(RiskNotRequired, UnknownRisk, None, [], [], [], [], [], [], [], [], Low)
  const NO_DECISION := Decision(DecisionNotRequired, UnknownRecommendation, UnknownConfidence, [], false, [], [])
  const NO_APPROVAL := Approval(NotRequested, false, "", None)
  const NO_SUMMARY := Summary(SummaryNotRequired, NoHeadline, NoText, UnknownConfidence, [])

  /** `create_initial_state` */
  function InitialState(experimentId: Option<string>, approvalInput: ApprovalInput,
                        request: Option<AnalysisRequest>): AgentState {
    AgentState(
      request, None, UnknownIntent, [],
      if experimentId.Some? && experimentId.value != "" then [experimentId.value] else [], [],
      [], [], NO_ANALYSIS, Metadata("", [], ""), [],
      NO_IMPACT, NO_RISK, NO_DECISION, NO_SUMMARY, approvalInput, NO_APPROVAL, [], map[], [], [])
  }

  // ---------------------------------------------------------------- updates

  /** A node's update: `None` leaves a field alone; the three logs are appended to. */
  datatype Update = Update(
    result: Option<Envelope>, chunks: Option<seq<Chunk>>, citations: Option<seq<Citation>>,
    analysis: Option<Analysis>, metadata: Option<Metadata>, stateMetrics: Option<seq<Metric>>,
    impact: Option<Impact>, risk: Option<Risk>, decision: Option<Decision>, summary: Option<Summary>,
    approval: Option<Approval>, metrics: Option<map<MetricKey, MetricEntry>>,
    toolCalls: seq<ToolCall>, errors: seq<ErrorRecord>, trace: seq<TraceEntry>)

  const NO_UPDATE := Update(None, None, None, None, None, None, None, None, None, None, None, None, [], [], [])

  function OrElse<T>(update: Option<T>, current: T): T {
    match update
    case None => current
    case Some(value) => value
  }

  /** The reducers: logs are appended to (`append_dict_list`), every other field is overwritten. */
  function Apply(s: AgentState, u: Update): AgentState {
    s.(result := if u.result.Some? then u.result else s.result,
       chunks := OrElse(u.chunks, s.chunks),
       citations := OrElse(u.citations, s.citations),
       analysis := OrElse(u.analysis, s.analysis),
       metadata := OrElse(u.metadata, s.metadata),
       stateMetrics := OrElse(u.stateMetrics, s.stateMetrics),
       impact := OrElse(u.impact, s.impact),
       risk := OrElse(u.risk, s.risk),
       decision := OrElse(u.decision, s.decision),
       summary := OrElse(u.summary, s.summary),
       approval := OrElse(u.approval, s.approval),
       metrics := OrElse(u.metrics, s.metrics),
       toolCalls := s.toolCalls + u.toolCalls,
       errors := s.errors + u.errors,
       trace := s.trace + u.trace)
  }
}
