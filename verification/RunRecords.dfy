/** What a run plans, logs, decides and reports, record by record. */
module RunRecords {
  import opened Text
  import opened Counting
  import opened MetricStore
  import opened AgentStates
  import opened Workflow
  import opened WorkflowRuns
  import opened WorkflowOutcomes
  import opened Recommendations
  import RolloutConditions
  import opened Guardrail
  import AnalysisAgent = ExperimentAnalysisAgent
  import ImpactAgent = BusinessImpactAgent
  import RiskAgent = RiskAssessmentAgent
  import DecisionAgent
  import ApprovalAgent = HumanApprovalAgent
  import SummaryAgent = ExecutiveSummaryAgent

  // ---------------------------------------------------------------- plans

  /** A question asks for a decision. */
  predicate Decides(intent: Intent) { intent in {DecisionSupport, SummaryRequest} }

  /** Whether a node is scheduled, node by node. */
  predicate Scheduled(q: Query, node: Node) {
    var wanted := q.request.Some? && !q.request.value.refusal;
    match node
    case Planner => false
    case Retrieval => q.request.None? && q.intent != UnknownIntent
    case ExperimentAnalysis => q.request.Some? || q.intent in {RiskQuestion, ImpactQuestion} || Decides(q.intent)
    case BusinessImpact =>
      if q.request.Some? then wanted && (q.request.value.business || q.intent == ImpactQuestion)
      else q.intent == ImpactQuestion || Decides(q.intent)
    case RiskAssessment => (q.request.None? || wanted) && (q.intent == RiskQuestion || Decides(q.intent))
    case DecisionMaking => (q.request.None? || wanted) && Decides(q.intent)
    case HumanApproval => (q.request.None? || wanted) && Decides(q.intent)
    case ExecutiveSummary => q.request.Some? || Decides(q.intent)
  }

  lemma UnstructuredPlan(intent: Intent, node: Node)
    ensures node in RequiredAgents(intent) <==>
              match node
              case Planner => false
              case Retrieval => intent != UnknownIntent
              case ExperimentAnalysis => intent in {RiskQuestion, ImpactQuestion} || Decides(intent)
              case BusinessImpact => intent == ImpactQuestion || Decides(intent)
              case RiskAssessment => intent == RiskQuestion || Decides(intent)
              case _ => Decides(intent)
  {
    match intent
    case GeneralQuestion => case ExperimentLookup => case DecisionSupport => case RiskQuestion => case ImpactQuestion =>
    case SummaryRequest => case UnknownIntent =>
  }

  lemma StructuredGroups(request: AnalysisRequest, intent: Intent, node: Node)
    ensures node in StructuredAgents(request, intent) <==>
              || node in {ExperimentAnalysis, ExecutiveSummary}
              || (!request.refusal && node == BusinessImpact && (request.business || intent == ImpactQuestion))
              || (!request.refusal && node == RiskAssessment && intent in {RiskQuestion, DecisionSupport, SummaryRequest})
              || (!request.refusal && node in {DecisionMaking, HumanApproval} && intent in {DecisionSupport, SummaryRequest})
  {
  }

  /** The plan schedules exactly these nodes, for every outcome of the classification and every structured request. */
  lemma PlanExactly(q: Query)
    ensures forall node :: node in PlannedAgents(q) <==> Scheduled(q, node)
  {
    hide RequiredAgents, StructuredAgents;
    forall node ensures node in PlannedAgents(q) <==> Scheduled(q, node) {
      match q.request
      case None => UnstructuredPlan(q.intent, node);
      case Some(request) => StructuredGroups(request, q.intent, node);
    }
  }

  // ---------------------------------------------------------------- errors

  function RetrievalErrors(answer: RetrievalAnswer): seq<ErrorRecord> {
    match answer
    case Retrieved(_, _) => []
    case RetrievalRaised(message) => [ErrorRecord("retrieval_failed", message, Known(Retrieval))]
  }

  function RepositoryErrors(answer: AnalysisAgent.RepositoryAnswer): seq<ErrorRecord> {
    match answer
    case RepositoryRaised(message) => [ErrorRecord("experiment_analysis_failed", message, Known(ExperimentAnalysis))]
    case _ => []
  }

  function LiftErrors(env: Environment): seq<ErrorRecord> {
    if LiftAnswered(env) then [] else [ErrorRecord("business_impact_failed", ImpactAgent.NO_LIFT_TO_FORMAT, Known(BusinessImpact))]
  }

  lemma LogsOfStep(q: Query, node: Node, s: AgentState, t: AgentState, u: Update)
    requires node in PlannedAgents(q) && t == Apply(s, StepUpdate(q, node, s, u))
    ensures t.errors == s.errors + u.errors && t.toolCalls == s.toolCalls + u.toolCalls && t.trace == s.trace + u.trace
  {
    hide PlannedAgents;
  }

  lemma ErrorsOfAgents(s: AgentState, env: Environment)
    requires s.request.None?
    ensures RunRetrieval(s, env.retrieval).errors == RetrievalErrors(env.retrieval)
    ensures AnalysisAgent.Run(s, env.repository, env.structured).errors == RepositoryErrors(env.repository)
    ensures RiskAgent.Run(s, env.riskToolFails).errors == [] && DecisionAgent.Run(s, env.tools).errors == []
    ensures ApprovalAgent.Run(s).errors == ApprovalAgent.InputErrors(s.approvalInput) && SummaryAgent.Run(s).errors == []
  {
    hide AnalysisAgent.AnalysisOf, AnalysisAgent.MatchingCitations, AnalysisAgent.UNRESOLVED_NOTE, RiskAgent.Assess,
      RiskAgent.HasContext, DecisionAgent.Decide, DecisionAgent.CallsOf, ApprovalAgent.Build, ApprovalAgent.InputErrors,
      SummaryAgent.Build;
  }

  lemma ErrorsOfImpact(s: AgentState, p: ImpactAgent.ImpactInputs)
    requires s.request.None?
    ensures ImpactAgent.Run(s, p).errors
         == if LiftComputed(s, p) then []
            else [ErrorRecord("business_impact_failed", ImpactAgent.NO_LIFT_TO_FORMAT, Known(BusinessImpact))]
  {
    hide ImpactAgent.Values, ImpactAgent.ZERO_BASELINE_NOTE, ImpactAgent.OBSERVED_ONLY_NOTE,
      ImpactAgent.NO_ESTIMATE_NOTE, ImpactAgent.NO_ANNUALIZED_NOTE, ImpactAgent.NO_LIFT_TO_FORMAT;
  }

  /** State `k` of a full run logs what its agent logs after what was logged before. */
  lemma LogsInRun(q: Query, env: Environment, states: seq<AgentState>, k: nat)
    requires DefaultRun(q, env, states) && FullRun(q) && 0 < k < |NODE_ORDER|
    ensures |states| == 8 && states[k - 1].request == q.request && states[k - 1].approvalInput == q.approvalInput
    ensures var u := RunAgent(NODE_ORDER[k], states[k - 1], env);
            && states[k].errors == states[k - 1].errors + u.errors && states[k].toolCalls == states[k - 1].toolCalls + u.toolCalls
            && states[k].trace == states[k - 1].trace + u.trace
  {
    hide *;
    DefaultRunIsARun(q, env, states);
    DefaultAgentsBehave(env);
    InputsKept(q, DefaultAgents(env), states, k - 1);
    DefaultStep(q, env, states, k);
    PlannerIsFirst(k);
    FullPlan(q, NODE_ORDER[k]);
    LogsOfStep(q, NODE_ORDER[k], states[k - 1], states[k], RunAgent(NODE_ORDER[k], states[k - 1], env));
  }

  lemma Unstructured(q: Query)
    requires FullRun(q)
    ensures q.request.None?
  {
  }

  lemma NothingYet(q: Query)
    ensures PlannerState(q).errors == [] && PlannerState(q).toolCalls == []
    ensures PlannerState(q).trace == [TraceEntry(Planner, PlannedEvent)]
  {
  }

  lemma FirstErrors(q: Query, env: Environment, states: seq<AgentState>)
    requires DefaultRun(q, env, states) && FullRun(q)
    ensures |states| == 8 && states[2].errors == RetrievalErrors(env.retrieval) + RepositoryErrors(env.repository)
  {
    hide *;
    DefaultRunIsARun(q, env, states);
    NothingYet(q);
    Unstructured(q);
    OrderNames();
    LogsInRun(q, env, states, 1);
    Dispatch(states[0], env);
    ErrorsOfAgents(states[0], env);
    LogsInRun(q, env, states, 2);
    Dispatch(states[1], env);
    ErrorsOfAgents(states[1], env);
    assert [] + RetrievalErrors(env.retrieval) == RetrievalErrors(env.retrieval);
  }

  lemma LiftErrorsAre(env: Environment)
    ensures LiftErrors(env) == if LiftAnswered(env) then []
              else [ErrorRecord("business_impact_failed", ImpactAgent.NO_LIFT_TO_FORMAT, Known(BusinessImpact))]
  {
    hide LiftAnswered, ImpactAgent.NO_LIFT_TO_FORMAT;
  }

  lemma ImpactErrors(q: Query, env: Environment, states: seq<AgentState>)
    requires DefaultRun(q, env, states) && FullRun(q)
    ensures |states| == 8 && states[3].errors == states[2].errors + LiftErrors(env)
  {
    hide *;
    LiftErrorsAre(env);
    OrderNames();
    Unstructured(q);
    LogsInRun(q, env, states, 3);
    Dispatch(states[2], env);
    ErrorsOfImpact(states[2], env.impact);
    FirstSteps(q, env, states);
    LiftOfStoredPair(states[1], states[2], env);
  }

  lemma LateErrors(q: Query, env: Environment, states: seq<AgentState>)
    requires DefaultRun(q, env, states) && FullRun(q)
    ensures |states| == 8 && states[4].errors == states[3].errors && states[5].errors == states[3].errors
  {
    hide *;
    OrderNames();
    Unstructured(q);
    LogsInRun(q, env, states, 4);
    Dispatch(states[3], env);
    ErrorsOfAgents(states[3], env);
    LogsInRun(q, env, states, 5);
    Dispatch(states[4], env);
    ErrorsOfAgents(states[4], env);
    assert states[3].errors + [] == states[3].errors;
  }

  lemma ClosingErrors(q: Query, env: Environment, states: seq<AgentState>)
    requires DefaultRun(q, env, states) && FullRun(q)
    ensures |states| == 8 && states[6].errors == states[5].errors + ApprovalAgent.InputErrors(q.approvalInput)
    ensures states[7].errors == states[6].errors
  {
    hide *;
    OrderNames();
    Unstructured(q);
    LogsInRun(q, env, states, 6);
    Dispatch(states[5], env);
    ErrorsOfAgents(states[5], env);
    LogsInRun(q, env, states, 7);
    Dispatch(states[6], env);
    ErrorsOfAgents(states[6], env);
    assert states[6].errors + [] == states[6].errors;
  }

  /**
   A full run logs exactly what went wrong, in order and under the agent's own name: a failed retrieval, a failed
   repository, a failed lift call, and an approval input that is no mapping or says none of the three words.
   */
  lemma ErrorsOfRun(q: Query, env: Environment, states: seq<AgentState>)
    requires DefaultRun(q, env, states) && FullRun(q)
    ensures |states| == 8
    ensures states[4].errors == RetrievalErrors(env.retrieval) + RepositoryErrors(env.repository) + LiftErrors(env)
    ensures states[7].errors == RetrievalErrors(env.retrieval) + RepositoryErrors(env.repository) + LiftErrors(env)
                                + ApprovalAgent.InputErrors(q.approvalInput)
  {
    hide *;
    FirstErrors(q, env, states);
    ImpactErrors(q, env, states);
    LateErrors(q, env, states);
    ClosingErrors(q, env, states);
  }

  // ---------------------------------------------------------------- the trace

  /** What a required node leaves in the trace. */
  function Segment(node: Node, failed: bool): seq<TraceEntry> {
    [TraceEntry(node, StartedEvent), TraceEntry(node, if failed then FailedEvent else CompletedEvent)]
  }

  lemma TraceOfAgents(s: AgentState, env: Environment)
    requires s.request.None?
    ensures RunRetrieval(s, env.retrieval).trace == Segment(Retrieval, env.retrieval.RetrievalRaised?)
    ensures AnalysisAgent.Run(s, env.repository, env.structured).trace
         == Segment(ExperimentAnalysis, env.repository.RepositoryRaised?)
    ensures RiskAgent.Run(s, env.riskToolFails).trace == Segment(RiskAssessment, false)
    ensures DecisionAgent.Run(s, env.tools).trace == Segment(DecisionMaking, false)
    ensures ApprovalAgent.Run(s).trace == Segment(HumanApproval, false)
    ensures SummaryAgent.Run(s).trace == Segment(ExecutiveSummary, false)
  {
    hide AnalysisAgent.AnalysisOf, AnalysisAgent.MatchingCitations, AnalysisAgent.UNRESOLVED_NOTE, RiskAgent.Assess,
      RiskAgent.HasContext, DecisionAgent.Decide, DecisionAgent.CallsOf, ApprovalAgent.Build, ApprovalAgent.InputErrors,
      SummaryAgent.Build;
  }

  lemma TraceOfImpact(s: AgentState, p: ImpactAgent.ImpactInputs)
    requires s.request.None?
    ensures ImpactAgent.Run(s, p).trace == Segment(BusinessImpact, !LiftComputed(s, p))
  {
    hide ImpactAgent.Values, ImpactAgent.ZERO_BASELINE_NOTE, ImpactAgent.OBSERVED_ONLY_NOTE,
      ImpactAgent.NO_ESTIMATE_NOTE, ImpactAgent.NO_ANNUALIZED_NOTE, ImpactAgent.NO_LIFT_TO_FORMAT;
  }

  lemma FirstTrace(q: Query, env: Environment, states: seq<AgentState>)
    requires DefaultRun(q, env, states) && FullRun(q)
    ensures |states| == 8
    ensures states[2].trace == [TraceEntry(Planner, PlannedEvent)] + Segment(Retrieval, env.retrieval.RetrievalRaised?)
                               + Segment(ExperimentAnalysis, env.repository.RepositoryRaised?)
  {
    hide *;
    DefaultRunIsARun(q, env, states);
    NothingYet(q);
    Unstructured(q);
    OrderNames();
    LogsInRun(q, env, states, 1);
    Dispatch(states[0], env);
    TraceOfAgents(states[0], env);
    LogsInRun(q, env, states, 2);
    Dispatch(states[1], env);
    TraceOfAgents(states[1], env);
  }

  lemma MiddleTrace(q: Query, env: Environment, states: seq<AgentState>)
    requires DefaultRun(q, env, states) && FullRun(q)
    ensures |states| == 8
    ensures states[4].trace == states[2].trace + Segment(BusinessImpact, !LiftAnswered(env)) + Segment(RiskAssessment, false)
  {
    hide *;
    OrderNames();
    Unstructured(q);
    LogsInRun(q, env, states, 3);
    Dispatch(states[2], env);
    TraceOfImpact(states[2], env.impact);
    FirstSteps(q, env, states);
    LiftOfStoredPair(states[1], states[2], env);
    LogsInRun(q, env, states, 4);
    Dispatch(states[3], env);
    TraceOfAgents(states[3], env);
  }

  lemma LateTrace(q: Query, env: Environment, states: seq<AgentState>)
    requires DefaultRun(q, env, states) && FullRun(q)
    ensures |states| == 8
    ensures states[7].trace == states[4].trace + Segment(DecisionMaking, false) + Segment(HumanApproval, false)
                               + Segment(ExecutiveSummary, false)
  {
    hide *;
    OrderNames();
    Unstructured(q);
    LogsInRun(q, env, states, 5);
    Dispatch(states[4], env);
    TraceOfAgents(states[4], env);
    LogsInRun(q, env, states, 6);
    Dispatch(states[5], env);
    TraceOfAgents(states[5], env);
    LogsInRun(q, env, states, 7);
    Dispatch(states[6], env);
    TraceOfAgents(states[6], env);
  }

  /** The whole trace of a full run: planned once, then every node started and completed, or failed where its service did. */
  lemma TraceOfRun(q: Query, env: Environment, states: seq<AgentState>)
    requires DefaultRun(q, env, states) && FullRun(q)
    ensures |states| == 8
    ensures states[7].trace
         == [TraceEntry(Planner, PlannedEvent)] + Segment(Retrieval, env.retrieval.RetrievalRaised?)
            + Segment(ExperimentAnalysis, env.repository.RepositoryRaised?) + Segment(BusinessImpact, !LiftAnswered(env))
            + Segment(RiskAssessment, false) + Segment(DecisionMaking, false) + Segment(HumanApproval, false)
            + Segment(ExecutiveSummary, false)
  {
    hide *;
    FirstTrace(q, env, states);
    MiddleTrace(q, env, states);
    LateTrace(q, env, states);
  }

  // ---------------------------------------------------------------- tool calls

  const LIFT_CALLS := [
    ToolCall("calculate_absolute_lift", Known(BusinessImpact), false), ToolCall("calculate_relative_lift", Known(BusinessImpact), false)]

  function RiskCalls(context: bool, failed: bool): seq<ToolCall> {
    if context then [ToolCall("score_experiment_risk", Known(RiskAssessment), failed)] else []
  }

  /** The validation is asked unless something went wrong before, the confidence only for a decision that is made. */
  function DecisionCalls(errors: bool, decided: bool, noValidation: bool, noConfidence: bool): seq<ToolCall> {
    (if errors then [] else [ToolCall("validate_required_evidence", Known(DecisionMaking), noValidation)])
    + (if decided then [ToolCall("score_decision_confidence", Known(DecisionMaking), noConfidence)] else [])
  }

  lemma CallsOfAgents(s: AgentState, env: Environment)
    requires s.request.None?
    ensures RunRetrieval(s, env.retrieval).toolCalls == []
    ensures AnalysisAgent.Run(s, env.repository, env.structured).toolCalls == []
    ensures RiskAgent.Run(s, env.riskToolFails).toolCalls == RiskCalls(RiskAgent.HasContext(s), env.riskToolFails)
    ensures ApprovalAgent.Run(s).toolCalls == [] && SummaryAgent.Run(s).toolCalls == []
  {
    hide AnalysisAgent.AnalysisOf, AnalysisAgent.MatchingCitations, AnalysisAgent.UNRESOLVED_NOTE, RiskAgent.Assess,
      RiskAgent.HasContext, ApprovalAgent.Build, ApprovalAgent.InputErrors, SummaryAgent.Build;
  }

  lemma CallsOfDecision(s: AgentState, tools: DecisionAgent.ToolAnswers)
    requires s.request.None?
    ensures DecisionAgent.Run(s, tools).toolCalls
         == DecisionCalls(s.errors != [], DecisionAgent.Decide(s, tools).status == Decided,
                          DecisionAgent.Validated(s, tools) == None, tools.confidence == None)
  {
    DecideOutcomes(s, tools);
    hide DecisionAgent.Decide, DecisionAgent.Validated, DecisionAgent.Insufficient, DecisionAgent.HarmfulIssues,
      DecisionAgent.LiftDirection, DecisionAgent.PrimaryWorsened, DecisionAgent.BusinessPositive, DecisionAgent.ValidationPasses,
      DecisionAgent.NeedsData;
  }

  lemma CallsOfImpact(s: AgentState, p: ImpactAgent.ImpactInputs)
    requires s.request.None? && ImpactAgent.RegisteredLifts(p.lifts)
    ensures var (control, treatment) := ImpactAgent.Values(s);
            ImpactAgent.Run(s, p).toolCalls
            == if control.Some? && treatment.Some? then LIFT_CALLS else []
  {
    var (control, treatment) := ImpactAgent.Values(s);
    if control.Some? && treatment.Some? {
      var absolute := ImpactAgent.CalculateAbsoluteLift(control.value, treatment.value);
      assert p.lifts.absolute(control.value, treatment.value) == absolute;
      assert p.lifts.relative(control.value, absolute, treatment.value)
          == ImpactAgent.CalculateRelativeLift(control.value, absolute, treatment.value);
    }
    hide ImpactAgent.Values, ImpactAgent.ZERO_BASELINE_NOTE, ImpactAgent.OBSERVED_ONLY_NOTE,
      ImpactAgent.NO_ESTIMATE_NOTE, ImpactAgent.NO_ANNUALIZED_NOTE, AnalysisAgent.Round6;
  }

  lemma EarlyCalls(q: Query, env: Environment, states: seq<AgentState>)
    requires DefaultRun(q, env, states) && FullRun(q) && ImpactAgent.RegisteredLifts(env.impact.lifts)
    ensures |states| == 8 && states[3].toolCalls == if PairStored(env) then LIFT_CALLS else []
  {
    PairIsStored(env);
    hide *;
    NoCallsYet(q, env, states);
    Unstructured(q);
    OrderNames();
    LogsInRun(q, env, states, 3);
    Dispatch(states[2], env);
    CallsOfImpact(states[2], env.impact);
    FirstSteps(q, env, states);
    ValuesNeedThePair(states[1], states[2], env.repository);
  }

  lemma NoCallsYet(q: Query, env: Environment, states: seq<AgentState>)
    requires DefaultRun(q, env, states) && FullRun(q)
    ensures |states| == 8 && states[2].toolCalls == []
  {
    hide *;
    DefaultRunIsARun(q, env, states);
    NothingYet(q);
    Unstructured(q);
    OrderNames();
    LogsInRun(q, env, states, 1);
    Dispatch(states[0], env);
    CallsOfAgents(states[0], env);
    LogsInRun(q, env, states, 2);
    Dispatch(states[1], env);
    CallsOfAgents(states[1], env);
  }

  /**
   The tools a full run calls: the two lift tools exactly with the stored pair, risk scoring exactly with some context,
   validation unless something went wrong before, and the confidence exactly when a decision is made.
   */
  lemma ToolCallsOfRun(q: Query, env: Environment, states: seq<AgentState>)
    requires DefaultRun(q, env, states) && FullRun(q) && ImpactAgent.RegisteredLifts(env.impact.lifts)
    ensures |states| == 8
    ensures states[7].toolCalls
         == (if PairStored(env) then LIFT_CALLS else []) + RiskCalls(RiskAgent.HasContext(states[3]), env.riskToolFails)
            + DecisionCalls(env.retrieval.RetrievalRaised? || env.repository.RepositoryRaised?, states[7].decision.status == Decided,
                            DecisionAgent.Validated(states[4], env.tools) == None, env.tools.confidence == None)
  {
    hide *;
    EarlyCalls(q, env, states);
    FirstSteps(q, env, states);
    EvidenceOfRun(q, env, states);
    RegisteredLiftsAnswer(env);
    DecisionOfRun(q, env, states);
    FullDecision(q, states[4], env.tools);
    Unstructured(q);
    OrderNames();
    LateCalls(q, env, states);
  }

  lemma LateCalls(q: Query, env: Environment, states: seq<AgentState>)
    requires DefaultRun(q, env, states) && FullRun(q)
    ensures |states| == 8
    ensures states[7].toolCalls
         == states[3].toolCalls + RiskCalls(RiskAgent.HasContext(states[3]), env.riskToolFails)
            + DecisionCalls(states[4].errors != [], DecisionAgent.Decide(states[4], env.tools).status == Decided,
                            DecisionAgent.Validated(states[4], env.tools) == None, env.tools.confidence == None)
  {
    hide *;
    Unstructured(q);
    OrderNames();
    LogsInRun(q, env, states, 4);
    Dispatch(states[3], env);
    CallsOfAgents(states[3], env);
    LogsInRun(q, env, states, 5);
    Dispatch(states[4], env);
    CallsOfDecision(states[4], env.tools);
    LogsInRun(q, env, states, 6);
    Dispatch(states[5], env);
    CallsOfAgents(states[5], env);
    LogsInRun(q, env, states, 7);
    Dispatch(states[6], env);
    CallsOfAgents(states[6], env);
    assert states[5].toolCalls + [] + [] == states[5].toolCalls;
  }

  // ---------------------------------------------------------------- the impact

  lemma ImpactKeepsValues(t: AgentState, u: AgentState, p: ImpactAgent.ImpactInputs)
    requires ImpactFollows(t, u, p) && ImpactAgent.RegisteredLifts(p.lifts)
    ensures (u.impact.baseline, u.impact.treatment) == ImpactAgent.Values(t)
    ensures u.impact.annualized == p.annualized && u.impact.confidence == t.analysis.confidence
  {
    var (control, treatment) := ImpactAgent.Values(t);
    if control.Some? && treatment.Some? {
      RegisteredLiftIsSome(p.lifts, control.value, treatment.value);
    }
    hide ImpactAgent.Values, ImpactAgent.ZERO_BASELINE_NOTE, ImpactAgent.OBSERVED_ONLY_NOTE,
      ImpactAgent.NO_ESTIMATE_NOTE, ImpactAgent.NO_ANNUALIZED_NOTE, ImpactAgent.RegisteredLifts;
  }

  lemma ValuesAreStored(s: AgentState, t: AgentState, answer: AnalysisAgent.RepositoryAnswer)
    requires Analyzed(s, t, answer)
    ensures answer.Resolved? ==>
              ImpactAgent.Values(t) == (ValueOf(LastMatch(answer.metrics, answer.experiment.primaryMetric, "control")),
                                        ValueOf(LastMatch(answer.metrics, answer.experiment.primaryMetric, "treatment")))
    ensures !answer.Resolved? ==> ImpactAgent.Values(t) == (None, None)
  {
    hide LastMatch, AnalysisAgent.Round6, AnalysisAgent.Guardrails, NamesOf, AnalysisAgent.MatchingCitations,
      AnalysisAgent.ExperimentId, AnalysisAgent.MissingPairNote, AnalysisAgent.NO_CITATIONS_NOTE, AnalysisAgent.AnalysisConfidence;
    NoMetrics(if t.analysis.primaryMetric != "" then t.analysis.primaryMetric else t.metadata.primaryMetric);
  }

  lemma NoMetrics(name: string)
    ensures LastMatch([], name, "control") == None && LastMatch([], name, "treatment") == None
  {
  }

  /** The reported impact is about the stored values of the primary metric, each as far as it is stored. */
  lemma ImpactOfRun(q: Query, env: Environment, states: seq<AgentState>)
    requires DefaultRun(q, env, states) && FullRun(q) && ImpactAgent.RegisteredLifts(env.impact.lifts)
    ensures |states| == 8
    ensures var i := states[7].impact;
            && i.annualized == env.impact.annualized && i.confidence == states[7].analysis.confidence
            && (i.status == Estimated <==> PairStored(env))
            && if env.repository.Resolved? then
                 var metrics, primary := env.repository.metrics, env.repository.experiment.primaryMetric;
                 && i.baseline == ValueOf(LastMatch(metrics, primary, "control"))
                 && i.treatment == ValueOf(LastMatch(metrics, primary, "treatment"))
               else i.baseline == None && i.treatment == None
  {
    PairIsStored(env);
    hide *;
    FirstSteps(q, env, states);
    FinalFieldsOfDefaultRun(q, env, states);
    EvidenceOfRun(q, env, states);
    RegisteredLiftsAnswer(env);
    ImpactKeepsValues(states[2], states[3], env.impact);
    ValuesAreStored(states[1], states[2], env.repository);
  }

  // ---------------------------------------------------------------- the decision's contents

  /** A text is listed exactly if it is not empty and among these; each once. */
  ghost predicate Unique(listed: seq<string>, given: seq<string>) {
    Distinct(listed) && forall text :: text in listed <==> text in given && text != ""
  }

  lemma FirstAreUnique(given: seq<string>)
    ensures Unique(FirstOccurrences(given), given)
  {
    FirstOccurrencesMeaning(given);
    hide FirstOccurrences;
  }

  lemma TwiceUnique(given: seq<string>)
    ensures Unique(FirstOccurrences(FirstOccurrences(given)), given)
  {
    FirstOccurrencesMeaning(given);
    FirstOccurrencesMeaning(FirstOccurrences(given));
    hide FirstOccurrences;
  }

  lemma {:induction false} CitedOnce(citations: seq<Citation>)
    ensures Distinct(DecisionAgent.FirstCitations(citations))
    ensures forall c :: c in DecisionAgent.FirstCitations(citations) <==> c in citations
  {
    DecisionAgent.FirstCitationsMeaning(citations);
    if citations != [] {
      var n := |citations| - 1;
      CitedOnce(citations[..n]);
    }
  }

  /** Whatever is decided, it cites all evidence and states all limitations, each once. */
  lemma DecisionCites(s: AgentState, tools: DecisionAgent.ToolAnswers)
    ensures var d := DecisionAgent.Decide(s, tools);
            && Distinct(d.citations)
            && (forall c :: c in d.citations <==> c in s.analysis.citations || c in s.impact.citations || c in s.risk.citations || c in s.citations)
            && Unique(d.limitations, s.analysis.limitations + s.impact.limitations + s.risk.limitations)
  {
    CitedOnce(DecisionAgent.AllCitations(s));
    TwiceUnique(s.analysis.limitations + s.impact.limitations + s.risk.limitations);
    hide DecisionAgent.HarmfulIssues, DecisionAgent.LiftDirection, DecisionAgent.PrimaryWorsened, DecisionAgent.BusinessPositive,
      DecisionAgent.NeedsData, DecisionAgent.Insufficient, DecisionAgent.Gaps, DecisionAgent.ErrorIssues,
      DecisionAgent.FirstCitations, DecisionAgent.INSUFFICIENT_ISSUES, FirstOccurrences, DecisionAgent.ValidationPasses, Unique,
      Distinct;
  }

  /** The eight gaps, and the five lists of concerns. */
  ghost predicate IsGap(text: string, s: AgentState) {
    || (text == "Experiment analysis status is not_applicable." && s.analysis.status == NotApplicable)
    || (text == "Experiment analysis status is insufficient_data." && s.analysis.status == AnalysisInsufficient)
    || (text == "Statistical significance is missing for the primary metric." && s.analysis.significance == None)
    || (text == "Business impact is only partially estimated." && s.impact.status == PartialEstimate)
    || (text == "Business impact is insufficient for a rollout decision." && s.impact.status == ImpactInsufficient)
    || (text == "Risk assessment is only partially complete." && s.risk.status == PartialAssessment)
    || (text == "Risk assessment is insufficient for a rollout decision." && s.risk.status == RiskInsufficient)
    || (text == "Overall risk level is unknown." && s.risk.level == UnknownRisk)
    || text in s.risk.guardrailConcerns || text in s.risk.statisticalConcerns || text in s.risk.dataQualityConcerns
    || text in s.risk.rolloutConcerns || text in s.risk.userConcerns
  }

  lemma InNote(condition: bool, note: string, text: string)
    ensures text in DecisionAgent.Note(condition, note) <==> condition && text == note
  {
  }

  lemma GapsAre(s: AgentState)
    ensures Distinct(DecisionAgent.Gaps(s)) && forall text :: text in DecisionAgent.Gaps(s) <==> text != "" && IsGap(text, s)
  {
    var notes :=
      DecisionAgent.Note(s.analysis.status == NotApplicable, "Experiment analysis status is not_applicable.")
      + DecisionAgent.Note(s.analysis.status == AnalysisInsufficient, "Experiment analysis status is insufficient_data.")
      + DecisionAgent.Note(s.analysis.significance == None, "Statistical significance is missing for the primary metric.")
      + DecisionAgent.Note(s.impact.status == PartialEstimate, "Business impact is only partially estimated.")
      + DecisionAgent.Note(s.impact.status == ImpactInsufficient, "Business impact is insufficient for a rollout decision.")
      + DecisionAgent.Note(s.risk.status == PartialAssessment, "Risk assessment is only partially complete.")
      + DecisionAgent.Note(s.risk.status == RiskInsufficient, "Risk assessment is insufficient for a rollout decision.")
      + DecisionAgent.Note(s.risk.level == UnknownRisk, "Overall risk level is unknown.")
      + s.risk.guardrailConcerns + s.risk.statisticalConcerns + s.risk.dataQualityConcerns
      + s.risk.rolloutConcerns + s.risk.userConcerns;
    assert DecisionAgent.Gaps(s) == FirstOccurrences(notes);
    FirstAreUnique(notes);
    hide FirstOccurrences, DecisionAgent.Gaps;
    forall text ensures text in notes <==> IsGap(text, s) {
      hide DecisionAgent.Note;
      InNote(s.analysis.status == NotApplicable, "Experiment analysis status is not_applicable.", text);
      InNote(s.analysis.status == AnalysisInsufficient, "Experiment analysis status is insufficient_data.", text);
      InNote(s.analysis.significance == None, "Statistical significance is missing for the primary metric.", text);
      InNote(s.impact.status == PartialEstimate, "Business impact is only partially estimated.", text);
      InNote(s.impact.status == ImpactInsufficient, "Business impact is insufficient for a rollout decision.", text);
      InNote(s.risk.status == PartialAssessment, "Risk assessment is only partially complete.", text);
      InNote(s.risk.status == RiskInsufficient, "Risk assessment is insufficient for a rollout decision.", text);
      InNote(s.risk.level == UnknownRisk, "Overall risk level is unknown.", text);
    }
  }

  lemma {:induction false} ErrorTexts(errors: seq<ErrorRecord>)
    ensures forall text :: text in DecisionAgent.ErrorIssues(errors) <==>
              exists error :: error in errors && error.code != "" && error.message != "" && text == error.code + ": " + error.message
  {
    if errors != [] {
      var n := |errors| - 1;
      ErrorTexts(errors[..n]);
      assert errors == errors[..n] + [errors[n]];
      assert errors[n] in errors;
      forall text
        ensures text in DecisionAgent.ErrorIssues(errors) <==>
                exists error :: error in errors && error.code != "" && error.message != "" && text == error.code + ": " + error.message
      {
        if error :| error in errors && error.code != "" && error.message != "" && text == error.code + ": " + error.message {
          assert error in errors[..n] || error == errors[n];
        }
      }
    }
  }

  /** The parts of the evidence that the registered validation misses. */
  ghost predicate IsMissing(text: string, s: AgentState) {
    || (text == "experiment_analysis" && s.analysis.status != AnalysisCompleted)
    || (text == "business_impact" && s.impact.status in {ImpactNotRequired, ImpactInsufficient})
    || (text == "risk_assessment" && s.risk.status in {RiskNotRequired, RiskInsufficient})
    || (text == "statistical_significance" && s.analysis.significance == None)
    || (text == "citations" && DecisionAgent.AllCitations(s) == [])
  }

  /** The tool finds the evidence valid exactly if no part of it is missing, and names the missing parts. */
  lemma MissingParts(s: AgentState, tools: DecisionAgent.ToolAnswers)
    requires DecisionAgent.RegisteredValidation(tools)
    ensures DecisionAgent.Validated(s, tools).Some?
    ensures forall text :: text in DecisionAgent.Validated(s, tools).value.missing <==> IsMissing(text, s)
    ensures DecisionAgent.ValidationPasses(s, tools) <==> DecisionAgent.Validated(s, tools).value.missing == []
  {
    var p := DecisionAgent.PayloadOf(s);
    assert DecisionAgent.Validated(s, tools) == Some(DecisionAgent.ValidateRequiredEvidence(p));
    DecisionAgent.EmptyCitations(s);
    assert p.citationCount == 0 <==> DecisionAgent.AllCitations(s) == [];
    hide DecisionAgent.AllCitations, DecisionAgent.FirstCitations;
    forall text ensures text in DecisionAgent.ValidateRequiredEvidence(p).missing <==> IsMissing(text, s) {
      InNote(!p.hasAnalysis, "experiment_analysis", text);
      InNote(!p.hasImpact, "business_impact", text);
      InNote(!p.hasRisk, "risk_assessment", text);
      InNote(!p.hasSignificance, "statistical_significance", text);
      InNote(p.citationCount == 0, "citations", text);
      hide DecisionAgent.Note;
    }
  }

  /** What blocks or qualifies a decision, status by status: errors, missing evidence, worsened guardrails, or the gaps. */
  lemma IssuesOfDecision(s: AgentState, tools: DecisionAgent.ToolAnswers)
    ensures var d := DecisionAgent.Decide(s, tools);
            && (d.status == Blocked ==> Unique(d.blockingIssues, DecisionAgent.ErrorIssues(s.errors)))
            && (d.status == DecisionInsufficient ==>
                 Unique(d.blockingIssues, ["Experiment analysis is insufficient or missing.",
                                           "Grounded evidence citations are missing or incomplete."]))
            && (d.recommendation == DoNotRollout ==> Unique(d.blockingIssues, DecisionAgent.Gaps(s)))
            && (d.recommendation == Rollout ==> d.blockingIssues == [])
            && (d.status == NeedsMoreDataStatus ==>
                 Unique(d.blockingIssues,
                        (if DecisionAgent.ValidationPasses(s, tools) then [] else DecisionAgent.Validated(s, tools).value.missing)
                        + DecisionAgent.Gaps(s)))
  {
    hide *;
    InsufficientIssues();
    AnswersWhenFailing(s, tools);
    BlockingErrors(s, tools);
    BlockingGaps(s, tools);
    BlockingNeeds(s, tools);
    FirstAreUnique(DecisionAgent.ErrorIssues(s.errors));
    FirstAreUnique(["Experiment analysis is insufficient or missing.", "Grounded evidence citations are missing or incomplete."]);
    FirstAreUnique(DecisionAgent.Gaps(s));
    assert [] + DecisionAgent.Gaps(s) == DecisionAgent.Gaps(s);
    if !DecisionAgent.ValidationPasses(s, tools) {
      AnswersWhenFailing(s, tools);
      TwiceUnique(DecisionAgent.Validated(s, tools).value.missing + DecisionAgent.Gaps(s));
    }
  }

  lemma AnswersWhenFailing(s: AgentState, tools: DecisionAgent.ToolAnswers)
    ensures !DecisionAgent.ValidationPasses(s, tools) ==> DecisionAgent.Validated(s, tools).Some?
  {
    hide DecisionAgent.Validated;
  }

  lemma InsufficientIssues()
    ensures DecisionAgent.INSUFFICIENT_ISSUES
         == ["Experiment analysis is insufficient or missing.", "Grounded evidence citations are missing or incomplete."]
  {
  }

  lemma BlockingErrors(s: AgentState, tools: DecisionAgent.ToolAnswers)
    ensures var d := DecisionAgent.Decide(s, tools);
            && (d.status == Blocked ==> d.blockingIssues == FirstOccurrences(DecisionAgent.ErrorIssues(s.errors)))
            && (d.status == DecisionInsufficient ==> d.blockingIssues == FirstOccurrences(DecisionAgent.INSUFFICIENT_ISSUES))
  {
    NothingListed();
    hide DecisionAgent.HarmfulIssues, DecisionAgent.LiftDirection, DecisionAgent.PrimaryWorsened, DecisionAgent.BusinessPositive,
      DecisionAgent.NeedsData, DecisionAgent.Insufficient, DecisionAgent.Gaps, DecisionAgent.ErrorIssues,
      DecisionAgent.FirstCitations, FirstOccurrences, DecisionAgent.ValidationPasses, DecisionAgent.Limitations,
      DecisionAgent.AllCitations, DecisionAgent.Validated, DecisionAgent.HoldRecommendation, DecisionAgent.INSUFFICIENT_ISSUES,
      DecisionAgent.ScoredConfidence;
  }

  lemma BlockingGaps(s: AgentState, tools: DecisionAgent.ToolAnswers)
    ensures var d := DecisionAgent.Decide(s, tools);
            && (d.recommendation == DoNotRollout ==> d.blockingIssues == FirstOccurrences(DecisionAgent.Gaps(s)))
            && (d.recommendation == Rollout ==> d.blockingIssues == [])
  {
    NothingListed();
    hide DecisionAgent.HarmfulIssues, DecisionAgent.LiftDirection, DecisionAgent.PrimaryWorsened, DecisionAgent.BusinessPositive,
      DecisionAgent.NeedsData, DecisionAgent.Insufficient, DecisionAgent.Gaps, DecisionAgent.ErrorIssues,
      DecisionAgent.FirstCitations, FirstOccurrences, DecisionAgent.ValidationPasses, DecisionAgent.Limitations,
      DecisionAgent.AllCitations, DecisionAgent.Validated, DecisionAgent.INSUFFICIENT_ISSUES,
      DecisionAgent.ScoredConfidence;
  }

  lemma BlockingNeeds(s: AgentState, tools: DecisionAgent.ToolAnswers)
    requires !DecisionAgent.ValidationPasses(s, tools) ==> DecisionAgent.Validated(s, tools).Some?
    ensures var d := DecisionAgent.Decide(s, tools);
            d.status == NeedsMoreDataStatus ==>
              d.blockingIssues == if DecisionAgent.ValidationPasses(s, tools) then FirstOccurrences(DecisionAgent.Gaps(s))
                                  else FirstOccurrences(FirstOccurrences(DecisionAgent.Validated(s, tools).value.missing + DecisionAgent.Gaps(s)))
  {
    hide DecisionAgent.HarmfulIssues, DecisionAgent.LiftDirection, DecisionAgent.PrimaryWorsened, DecisionAgent.BusinessPositive,
      DecisionAgent.NeedsData, DecisionAgent.Insufficient, DecisionAgent.Gaps, DecisionAgent.ErrorIssues,
      DecisionAgent.FirstCitations, FirstOccurrences, DecisionAgent.ValidationPasses, DecisionAgent.Limitations,
      DecisionAgent.AllCitations, DecisionAgent.Validated, DecisionAgent.HoldRecommendation, DecisionAgent.INSUFFICIENT_ISSUES,
      DecisionAgent.ScoredConfidence;
  }

  lemma NothingListed()
    ensures FirstOccurrences([]) == []
  {
  }

  /** A blocked full run says why: its issues are the texts of what went wrong before the decision. */
  lemma BlockedRunSaysWhy(q: Query, env: Environment, states: seq<AgentState>)
    requires DefaultRun(q, env, states) && FullRun(q) && |states| == 8 && states[7].decision.status == Blocked
    ensures var errors := RetrievalErrors(env.retrieval) + RepositoryErrors(env.repository) + LiftErrors(env);
            Unique(states[7].decision.blockingIssues, DecisionAgent.ErrorIssues(errors)) && errors != []
  {
    hide *;
    ErrorsOfRun(q, env, states);
    DecisionOfRun(q, env, states);
    FullDecision(q, states[4], env.tools);
    IssuesOfDecision(states[4], env.tools);
    DecideOutcomes(states[4], env.tools);
  }

  // ---------------------------------------------------------------- too little evidence

  /** The sources state an impact of their own. */
  predicate Stated(p: ImpactAgent.ImpactInputs) { p.annualized.Some? || p.hasSavings || p.segment != "" }

  lemma ImpactWithoutPair(t: AgentState, u: AgentState, p: ImpactAgent.ImpactInputs)
    requires ImpactFollows(t, u, p) && t.analysis.observedLift == None
    requires var (control, treatment) := ImpactAgent.Values(t); !(control.Some? && treatment.Some?)
    ensures u.impact.status == if Stated(p) then PartialEstimate else ImpactInsufficient
    ensures u.impact.citations == if t.analysis.citations != [] then t.analysis.citations else t.citations
  {
    hide ImpactAgent.Values, ImpactAgent.ZERO_BASELINE_NOTE, ImpactAgent.OBSERVED_ONLY_NOTE,
      ImpactAgent.NO_ESTIMATE_NOTE, ImpactAgent.NO_ANNUALIZED_NOTE;
  }

  lemma AnalysisWithoutPair(s: AgentState, t: AgentState, answer: AnalysisAgent.RepositoryAnswer)
    requires Analyzed(s, t, answer) && t.analysis.status != AnalysisCompleted && !answer.RepositoryRaised?
    ensures t.analysis.status == AnalysisInsufficient && t.analysis.observedLift == None
    ensures s.citations == [] ==> t.analysis.citations == []
  {
    if answer.Resolved? {
      AnalysisAgent.MatchingCitationsMeaning(s.citations, answer.experiment);
      var matching := AnalysisAgent.MatchingCitations(s.citations, answer.experiment);
      assert matching != [] ==> matching[0] in matching;
    }
    hide AnalysisAgent.PairOf, AnalysisAgent.Guardrails, NamesOf, AnalysisAgent.MatchingCitations,
      AnalysisAgent.ExperimentId, AnalysisAgent.MissingPairNote, AnalysisAgent.NO_CITATIONS_NOTE,
      AnalysisAgent.AnalysisConfidence;
  }

  lemma RiskCites(s: AgentState)
    ensures RiskAgent.Assess(s).citations == if s.analysis.citations != [] then s.analysis.citations else s.citations
  {
    hide RiskAgent.Factors, RiskAgent.Limitations, FirstOccurrences, RiskAgent.ConfidenceOf, RiskAgent.HasContext,
      RiskAgent.ScoreOf, RiskAgent.CategoryDetails, RiskAgent.StatusOf, RiskAgent.NO_CONTEXT_NOTE, RiskAgent.LevelOf;
  }

  lemma TooLittle(s: AgentState, t: AgentState, u: AgentState, w: AgentState, answer: AnalysisAgent.RepositoryAnswer,
                  p: ImpactAgent.ImpactInputs)
    requires Analyzed(s, t, answer) && t.analysis.status != AnalysisCompleted && !answer.RepositoryRaised?
    requires ImpactFollows(t, u, p) && u.analysis == t.analysis && ReadyToDecide(u, w)
    requires s.citations == t.citations == u.citations == w.citations
    ensures DecisionAgent.Insufficient(w) <==> s.citations == [] && !Stated(p)
  {
    hide *;
    AnalysisWithoutPair(s, t, answer);
    ValuesNeedThePair(s, t, answer);
    ImpactWithoutPair(t, u, p);
    RiskCites(u);
    ReadyFields(u, w);
    InsufficientParts(w);
  }

  lemma InsufficientParts(s: AgentState)
    ensures DecisionAgent.Insufficient(s) <==>
              && s.analysis.status in {NotApplicable, AnalysisInsufficient} && s.impact.status in {ImpactNotRequired, ImpactInsufficient}
              && s.analysis.citations == [] && s.impact.citations == [] && s.risk.citations == [] && s.citations == []
  {
  }

  /** Too little evidence is reported exactly if everything answered, but with no primary pair, no citation and no stated impact. */
  lemma InsufficientExactly(q: Query, env: Environment, states: seq<AgentState>)
    requires DefaultRun(q, env, states) && FullRun(q) && ImpactAgent.RegisteredLifts(env.impact.lifts)
    ensures |states| == 8
    ensures states[7].decision.status == DecisionInsufficient <==>
              && env.retrieval.Retrieved? && !env.repository.RepositoryRaised? && !PairStored(env)
              && env.retrieval.citations == [] && !Stated(env.impact)
  {
    PairIsStored(env);
    hide *;
    RegisteredLiftsAnswer(env);
    EvidenceOfRun(q, env, states);
    FirstSteps(q, env, states);
    FinalFieldsOfDefaultRun(q, env, states);
    DecisionOfRun(q, env, states);
    FullDecision(q, states[4], env.tools);
    DecideOutcomes(states[4], env.tools);
    CitationsOfRun(q, env, states);
    if PairStored(env) {
      CompletedIsEnough(states[4]);
    } else if env.retrieval.Retrieved? && !env.repository.RepositoryRaised? {
      TooLittle(states[1], states[2], states[3], states[4], env.repository, env.impact);
    }
  }

  lemma CitationsOfRun(q: Query, env: Environment, states: seq<AgentState>)
    requires DefaultRun(q, env, states) && FullRun(q)
    ensures |states| == 8 && states[1].citations == states[2].citations == states[3].citations == states[4].citations
    ensures states[3].analysis == states[2].analysis
    ensures env.retrieval.Retrieved? ==> states[1].citations == env.retrieval.citations
  {
    hide *;
    OrderNames();
    DefaultRunIsARun(q, env, states);
    DefaultAgentsBehave(env);
    FirstFields(q);
    DefaultStep(q, env, states, 1);
    Dispatch(states[0], env);
    RetrievalStep(q, states[0], states[1], env.retrieval);
    RolloutConditions.FieldsKept(q, DefaultAgents(env), states);
  }

  // ---------------------------------------------------------------- the summary of a run

  /** What the headline of a full run says. */
  function HeadlineFor(d: Decision, approval: ApprovalStatus, insufficient: bool): Headline {
    if insufficient then InsufficientEvidence
    else match approval
      case Rejected => NotApproved
      case RevisionRequested => RevisionWasRequested
      case Pending => AwaitingApproval
      case Approved =>
        if d.recommendation == Rollout then RolloutSupportedAndApproved
        else if d.recommendation == Rollback then RollbackRecommended
        else DoNotRollOut
      case _ => RolloutNotReady
  }

  /** What a decision says about its approval. */
  ghost predicate Consistent(d: Decision, a: Approval) {
    && (d.status == Decided <==> d.recommendation in {Rollback, DoNotRollout, Rollout}) && (d.approvalRequired <==> d.status == Decided)
    && d.recommendation in {Rollback, DoNotRollout, Rollout, ContinueExperiment, NeedsMoreData}
    && d.status in {Decided, Blocked, DecisionInsufficient, NeedsMoreDataStatus}
    && (a.status == SkippedApproval <==> !d.approvalRequired) && a.status in {Approved, Rejected, RevisionRequested, Pending, SkippedApproval}
    && (d.status == DecisionInsufficient ==> d.recommendation == NeedsMoreData && d.confidence == UnknownConfidence)
  }

  /** The summary says what the decision says, in the words that the approval allows. */
  lemma SummarySays(s: AgentState)
    requires s.result == None && Consistent(s.decision, s.approval)
    ensures var m := SummaryAgent.Build(s);
            && m.headline == HeadlineFor(s.decision, s.approval.status, m.status == SummaryInsufficient)
            && m.recommendation == Recommends(s.decision.recommendation) && m.confidence == s.decision.confidence
            && (m.status == SummaryInsufficient <==>
                 && s.analysis.status in {NotApplicable, AnalysisInsufficient} && s.impact.status in {ImpactNotRequired, ImpactInsufficient}
                 && s.risk.status in {RiskNotRequired, RiskInsufficient} && s.decision.status == DecisionInsufficient && m.citations == [])
            && (m.status == Generated <==>
                 && s.analysis.status == AnalysisCompleted && s.impact.status == Estimated && s.risk.status == Assessed
                 && s.decision.status == Decided && s.errors == [])
            && Distinct(m.citations)
            && forall c :: c in m.citations <==>
                 c in s.analysis.citations || c in s.impact.citations || c in s.risk.citations || c in s.decision.citations || c in s.citations
  {
    CitedOnce(s.analysis.citations + s.impact.citations + s.risk.citations + s.decision.citations + s.citations);
    hide DecisionAgent.FirstCitations, Distinct;
  }

  lemma ConsistentInRun(q: Query, env: Environment, states: seq<AgentState>)
    requires DefaultRun(q, env, states) && FullRun(q)
    ensures |states| == 8 && Consistent(states[7].decision, states[7].approval)
  {
    hide *;
    DecisionOfRun(q, env, states);
    FullDecision(q, states[4], env.tools);
    DecideOutcomes(states[4], env.tools);
    ApprovalIsTheCallers(q, env, states);
    InsufficientMeansMore(states[4], env.tools);
    ConsistentParts(states[4], env.tools, states[7].decision, states[7].approval, q.approvalInput);
  }

  lemma InsufficientMeansMore(s: AgentState, tools: DecisionAgent.ToolAnswers)
    ensures DecisionAgent.Decide(s, tools).status == DecisionInsufficient ==>
              DecisionAgent.Decide(s, tools).recommendation == NeedsMoreData
  {
    hide DecisionAgent.HarmfulIssues, DecisionAgent.LiftDirection, DecisionAgent.PrimaryWorsened, DecisionAgent.BusinessPositive,
      DecisionAgent.NeedsData, DecisionAgent.Insufficient, DecisionAgent.Gaps, DecisionAgent.ErrorIssues,
      DecisionAgent.FirstCitations, FirstOccurrences, DecisionAgent.ValidationPasses, DecisionAgent.Limitations,
      DecisionAgent.AllCitations, DecisionAgent.Validated, DecisionAgent.INSUFFICIENT_ISSUES;
  }

  lemma ConsistentParts(s: AgentState, tools: DecisionAgent.ToolAnswers, d: Decision, a: Approval, input: ApprovalInput)
    requires d == DecisionAgent.Decide(s, tools) && a.required == d.approvalRequired && WorkflowOutcomes.Records(a, input)
    requires a.status == SkippedApproval <==> !d.approvalRequired
    requires d.status == DecisionInsufficient ==> d.recommendation == NeedsMoreData
    ensures Consistent(d, a)
  {
    DecideOutcomes(s, tools);
    OneOfTheWords(a, input);
    hide DecisionAgent.Decide, WorkflowOutcomes.Records, DecisionAgent.Insufficient, DecisionAgent.HarmfulIssues,
      DecisionAgent.LiftDirection, DecisionAgent.PrimaryWorsened, DecisionAgent.BusinessPositive, DecisionAgent.ValidationPasses,
      DecisionAgent.NeedsData;
  }

  lemma OneOfTheWords(a: Approval, input: ApprovalInput)
    requires WorkflowOutcomes.Records(a, input)
    ensures a.required ==> a.status in {Approved, Rejected, RevisionRequested, Pending}
  {
    hide ApprovalAgent.Says, Strip, Blank;
    assert ApprovalAgent.WORDS == ["approved", "rejected", "revision_requested"];
  }

  /**
   The report of a full run: the headline follows the caller's verdict and the recommendation, what is recommended and
   how surely is the decision's, the summary is complete exactly if everything was, and it cites every source once.
   */
  lemma SummaryOfFullRun(q: Query, env: Environment, states: seq<AgentState>)
    requires DefaultRun(q, env, states) && FullRun(q)
    ensures |states| == 8
    ensures var s, m := states[7], states[7].summary;
            && m.headline == HeadlineFor(s.decision, s.approval.status, m.status == SummaryInsufficient)
            && m.recommendation == Recommends(s.decision.recommendation) && m.confidence == s.decision.confidence
            && (m.status == SummaryInsufficient <==>
                 && s.analysis.status in {NotApplicable, AnalysisInsufficient} && s.impact.status in {ImpactNotRequired, ImpactInsufficient}
                 && s.risk.status in {RiskNotRequired, RiskInsufficient} && s.decision.status == DecisionInsufficient && m.citations == [])
            && (m.status == Generated <==>
                 && s.analysis.status == AnalysisCompleted && s.impact.status == Estimated && s.risk.status == Assessed
                 && s.decision.status == Decided && s.errors == [])
  {
    hide *;
    ConsistentInRun(q, env, states);
    SummaryOfRun(q, env, states);
    FullPlan(q, ExecutiveSummary);
    NotThePlanner();
    FinalFieldsOfDefaultRun(q, env, states);
    ClosingErrors(q, env, states);
    FirstSteps(q, env, states);
    FieldsBeforeSummary(q, env, states);
    SummarySays(states[6]);
  }

  lemma NotThePlanner()
    ensures ExecutiveSummary != Planner
  {
  }

  lemma FieldsBeforeSummary(q: Query, env: Environment, states: seq<AgentState>)
    requires DefaultRun(q, env, states)
    ensures |states| == 8
    ensures states[6].analysis == states[7].analysis && states[6].impact == states[7].impact && states[6].risk == states[7].risk
  {
    hide *;
    DefaultRunIsARun(q, env, states);
    DefaultAgentsBehave(env);
    FieldsKeptLate(q, DefaultAgents(env), states);
  }

  lemma FieldsKeptLate(q: Query, agents: Agents, states: seq<AgentState>)
    requires IsRun(q, agents, states) && Behave(agents) && |states| == 8
    ensures states[6].analysis == states[7].analysis && states[6].impact == states[7].impact && states[6].risk == states[7].risk
  {
    RunsOnlyGrow(q, agents, states, 6, 7);
    hide IsRun, Behave;
  }
}
