/** What the workflow recommends, approves and reports, stated over whole runs. */
module WorkflowOutcomes {
  import opened Text
  import opened MetricStore
  import opened AgentStates
  import opened Workflow
  import opened WorkflowRuns
  import opened Guardrail
  import AnalysisAgent = ExperimentAnalysisAgent
  import ImpactAgent = BusinessImpactAgent
  import RiskAgent = RiskAssessmentAgent
  import DecisionAgent
  import ApprovalAgent = HumanApprovalAgent
  import SummaryAgent = ExecutiveSummaryAgent

  // ---------------------------------------------------------------- the plan

  /** A list of nodes in the order of the workflow, each at most once, without the planner. */
  predicate InWorkflowOrder(agents: seq<Node>) {
    && (forall i :: 0 <= i < |agents| ==> 0 < Position(agents[i]))
    && forall i, j :: 0 <= i < j < |agents| ==> Position(agents[i]) < Position(agents[j])
  }

  lemma StructuredAgentsFollowTheOrder(request: AnalysisRequest, intent: Intent)
    ensures InWorkflowOrder(StructuredAgents(request, intent))
  {
    var agents := StructuredAgents(request, intent);
    var impact := request.business || intent == ImpactQuestion;
    if request.refusal {
      assert agents == [ExperimentAnalysis, ExecutiveSummary];
    } else if intent in {DecisionSupport, SummaryRequest} {
      assert agents == if impact
        then [ExperimentAnalysis, BusinessImpact, RiskAssessment, DecisionMaking, HumanApproval, ExecutiveSummary]
        else [ExperimentAnalysis, RiskAssessment, DecisionMaking, HumanApproval, ExecutiveSummary];
    } else if intent == RiskQuestion {
      assert agents == if impact then [ExperimentAnalysis, BusinessImpact, RiskAssessment, ExecutiveSummary]
        else [ExperimentAnalysis, RiskAssessment, ExecutiveSummary];
    } else {
      assert agents == if impact then [ExperimentAnalysis, BusinessImpact, ExecutiveSummary]
        else [ExperimentAnalysis, ExecutiveSummary];
    }
    hide StructuredAgents;
  }

  /** For every query the required agents are a subsequence of the node order, without the planner. */
  lemma RequiredAgentsFollowTheOrder(q: Query)
    ensures InWorkflowOrder(PlannedAgents(q))
  {
    if q.request.Some? {
      StructuredAgentsFollowTheOrder(q.request.value, q.intent);
      hide StructuredAgents;
    }
  }

  /** An unstructured question whose plan schedules every agent. */
  predicate FullRun(q: Query) { q.request.None? && q.intent in {DecisionSupport, SummaryRequest} }

  lemma DecidingRuns(q: Query)
    ensures FullRun(q) ==> forall node: Node :: node in PlannedAgents(q) <==> node != Planner
    ensures q.request.None? && !FullRun(q) ==> forall node: Node :: node in PlannedAgents(q) ==> Position(node) < 5
    ensures q.request.Some? ==> ExperimentAnalysis in PlannedAgents(q) && Retrieval !in PlannedAgents(q)
  {
    if FullRun(q) {
      forall node: Node ensures node in PlannedAgents(q) <==> node != Planner {
        match node
        case Planner => case Retrieval => case ExperimentAnalysis => case BusinessImpact =>
        case RiskAssessment => case DecisionMaking => case HumanApproval => case ExecutiveSummary =>
      }
    }
  }

  // ---------------------------------------------------------------- which step wrote what

  /** Fields whose owner comes after node `k` still hold their initial values. */
  ghost predicate NotYet(k: nat, s: AgentState) {
    && (k < 1 ==> s.chunks == [] && s.citations == [])
    && (k < 2 ==> s.analysis == NO_ANALYSIS && s.metadata == Metadata("", [], "") && s.stateMetrics == [] && s.result == None)
    && (k < 3 ==> s.impact == NO_IMPACT)
    && (k < 4 ==> s.risk == NO_RISK)
    && (k < 5 ==> s.decision == NO_DECISION)
    && (k < 6 ==> s.approval == NO_APPROVAL)
    && (k < 7 ==> s.summary == NO_SUMMARY)
  }

  lemma ApplyLeavesTheRest(k: nat, s: AgentState, u: Update)
    requires 0 < k < |NODE_ORDER| && NotYet(k - 1, s) && FieldsOwned(NODE_ORDER[k], u)
    ensures NotYet(k, Apply(s, u))
  {
    PositionInOrder(k);
    hide NODE_ORDER;
  }

  lemma FirstFields(q: Query)
    ensures var s := PlannerState(q);
            && NotYet(0, s) && s.errors == []
            && s.request == q.request && s.requiredAgents == PlannedAgents(q) && s.approvalInput == q.approvalInput
  {
  }

  lemma {:induction false} NotYetWritten(q: Query, agents: Agents, states: seq<AgentState>, k: nat)
    requires IsRun(q, agents, states) && Behave(agents) && k < |NODE_ORDER|
    ensures NotYet(k, states[k])
  {
    hide NodeUpdate, Apply, NotYet, PlannerState, NODE_ORDER;
    if k == 0 {
      FirstFields(q);
    } else {
      PositionInOrder(k);
      NotYetWritten(q, agents, states, k - 1);
      StepInto(q, agents, states, k);
      hide IsRun, Behave;
      var u := NodeUpdate(NODE_ORDER[k], states[k - 1], agents);
      NodeBehaves(NODE_ORDER[k], states[k - 1], agents);
      ApplyLeavesTheRest(k, states[k - 1], u);
    }
  }

  /** The inputs of a run are never changed. */
  lemma InputsKept(q: Query, agents: Agents, states: seq<AgentState>, k: nat)
    requires IsRun(q, agents, states) && Behave(agents) && k < |NODE_ORDER|
    ensures var s := states[k];
            s.request == q.request && s.requiredAgents == PlannedAgents(q) && s.approvalInput == q.approvalInput
  {
    FirstFields(q);
    hide PlannedAgents, PlannerState;
    RunsOnlyGrow(q, agents, states, 0, k);
  }

  /** The update a required node applies; any other node only logs that it was skipped. */
  function StepUpdate(q: Query, node: Node, s: AgentState, own: Update): Update {
    if node in PlannedAgents(q) then MergeMetrics(s, own) else SkippedUpdate(node)
  }

  lemma StepOfRun(q: Query, agents: Agents, states: seq<AgentState>, k: nat)
    requires IsRun(q, agents, states) && Behave(agents) && 0 < k < |NODE_ORDER|
    ensures states[k] == Apply(states[k - 1], StepUpdate(q, NODE_ORDER[k], states[k - 1], agents(NODE_ORDER[k], states[k - 1])))
  {
    InputsKept(q, agents, states, k - 1);
    StepInto(q, agents, states, k);
    hide PlannedAgents, MergeMetrics, SkippedUpdate, Apply, IsRun;
  }

  /** A run of the repository's own agents; `states[k]` is the state once node `k` has run. */
  ghost predicate DefaultRun(q: Query, env: Environment, states: seq<AgentState>) {
    IsRun(q, DefaultAgents(env), states)
  }

  /** Every query has a run of the repository's own agents. */
  lemma DefaultRunsExist(q: Query, env: Environment)
    ensures DefaultRun(q, env, Run(q, DefaultAgents(env)))
  {
    RunsAreExecutions(q, DefaultAgents(env), Run(q, DefaultAgents(env)));
    hide IsRun, Run, DefaultAgents;
  }

  lemma DefaultStep(q: Query, env: Environment, states: seq<AgentState>, k: nat)
    requires DefaultRun(q, env, states) && 0 < k < |NODE_ORDER|
    ensures states[k] == Apply(states[k - 1], StepUpdate(q, NODE_ORDER[k], states[k - 1], RunAgent(NODE_ORDER[k], states[k - 1], env)))
  {
    hide *;
    DefaultRunIsARun(q, env, states);
    DefaultAgentsBehave(env);
    StepOfRun(q, DefaultAgents(env), states, k);
    DefaultAgentIs(env, NODE_ORDER[k], states[k - 1]);
  }

  lemma DefaultRunIsARun(q: Query, env: Environment, states: seq<AgentState>)
    ensures DefaultRun(q, env, states) <==> IsRun(q, DefaultAgents(env), states)
    ensures DefaultRun(q, env, states) ==> |states| == |NODE_ORDER| == 8 && states[0] == PlannerState(q)
  {
    hide DefaultAgents, Stepped, PlannerState;
  }

  lemma DefaultAgentIs(env: Environment, node: Node, s: AgentState)
    ensures DefaultAgents(env)(node, s) == RunAgent(node, s, env)
  {
    hide RunAgent;
  }

  lemma Dispatch(s: AgentState, env: Environment)
    ensures RunAgent(NODE_ORDER[1], s, env) == RunRetrieval(s, env.retrieval)
    ensures RunAgent(NODE_ORDER[2], s, env) == AnalysisAgent.Run(s, env.repository, env.structured)
    ensures RunAgent(NODE_ORDER[3], s, env) == ImpactAgent.Run(s, env.impact)
    ensures RunAgent(NODE_ORDER[4], s, env) == RiskAgent.Run(s, env.riskToolFails)
    ensures RunAgent(NODE_ORDER[5], s, env) == DecisionAgent.Run(s, env.tools)
    ensures RunAgent(NODE_ORDER[6], s, env) == ApprovalAgent.Run(s)
    ensures RunAgent(NODE_ORDER[7], s, env) == SummaryAgent.Run(s)
  {
    hide RunRetrieval, AnalysisAgent.Run, ImpactAgent.Run, RiskAgent.Run, DecisionAgent.Run, ApprovalAgent.Run,
      SummaryAgent.Run;
  }

  lemma OrderNames()
    ensures |NODE_ORDER| == 8 && NODE_ORDER[1] == Retrieval && NODE_ORDER[2] == ExperimentAnalysis && NODE_ORDER[3] == BusinessImpact
    ensures NODE_ORDER[4] == RiskAssessment && NODE_ORDER[5] == DecisionMaking && NODE_ORDER[6] == HumanApproval
    ensures NODE_ORDER[7] == ExecutiveSummary
  {
  }

  /** What is known of the state before node `k` in a run. */
  ghost predicate Before(q: Query, k: nat, s: AgentState) {
    NotYet(k, s) && s.request == q.request && s.approvalInput == q.approvalInput
  }

  lemma StateBefore(q: Query, env: Environment, states: seq<AgentState>, k: nat)
    requires DefaultRun(q, env, states) && k < |NODE_ORDER|
    ensures |states| == 8 && Before(q, k, states[k])
  {
    hide *;
    DefaultRunIsARun(q, env, states);
    DefaultAgentsBehave(env);
    NotYetWritten(q, DefaultAgents(env), states, k);
    InputsKept(q, DefaultAgents(env), states, k);
    BeforeFrom(q, k, states[k]);
  }

  lemma BeforeFrom(q: Query, k: nat, s: AgentState)
    requires NotYet(k, s) && s.request == q.request && s.approvalInput == q.approvalInput
    ensures Before(q, k, s)
  {
    hide NotYet;
  }

  // ---------------------------------------------------------------- one step, on any state

  lemma RetrievalStep(q: Query, s: AgentState, t: AgentState, answer: RetrievalAnswer)
    requires FullRun(q) && s.errors == []
    requires t == Apply(s, StepUpdate(q, Retrieval, s, RunRetrieval(s, answer)))
    ensures t.errors == [] <==> answer.Retrieved?
    ensures answer.Retrieved? ==> t.chunks == answer.chunks && t.citations == answer.citations
  {
    DecidingRuns(q);
    hide PlannedAgents;
  }

  /** What the analysis step leaves behind, for each answer of the repository. */
  ghost predicate Analyzed(s: AgentState, t: AgentState, answer: AnalysisAgent.RepositoryAnswer) {
    match answer
    case RepositoryRaised(_) =>
      t.analysis == NO_ANALYSIS && t.metadata.primaryMetric == "" && t.stateMetrics == [] && |t.errors| == |s.errors| + 1
    case NoExperiment =>
      && t.analysis.status == AnalysisInsufficient && t.analysis.control == None && t.analysis.guardrails == []
      && t.analysis.observedLift == None && t.analysis.comparison == None && t.analysis.citations == s.citations
      && t.stateMetrics == [] && t.errors == s.errors
    case Resolved(e, metrics) =>
      && t.analysis == AnalysisAgent.AnalysisOf(e, metrics, AnalysisAgent.MatchingCitations(s.citations, e))
      && t.metadata == Metadata(e.primaryMetric, e.imperfections, e.businessDecision)
      && t.stateMetrics == metrics && t.errors == s.errors
  }

  lemma AnalysisStep(q: Query, s: AgentState, t: AgentState, answer: AnalysisAgent.RepositoryAnswer,
                     structured: Envelope)
    requires FullRun(q) && Before(q, 1, s)
    requires t == Apply(s, StepUpdate(q, ExperimentAnalysis, s, AnalysisAgent.Run(s, answer, structured)))
    ensures Analyzed(s, t, answer) && t.result == None
  {
    DecidingRuns(q);
    hide PlannedAgents, AnalysisAgent.AnalysisOf, AnalysisAgent.MatchingCitations, AnalysisAgent.UNRESOLVED_NOTE;
  }

  /** What the impact step leaves behind: the estimate, or a logged error. */
  ghost predicate ImpactFollows(s: AgentState, t: AgentState, p: ImpactAgent.ImpactInputs) {
    match ImpactAgent.Build(s, p)
    case Err(message) =>
      t.impact == NO_IMPACT && t.errors == s.errors + [ErrorRecord("business_impact_failed", message, Known(BusinessImpact))]
    case Ok((impact, _)) => t.impact == impact && t.errors == s.errors
  }

  lemma ImpactStep(q: Query, s: AgentState, t: AgentState, p: ImpactAgent.ImpactInputs)
    requires FullRun(q) && Before(q, 2, s) && s.result == None
    requires t == Apply(s, StepUpdate(q, BusinessImpact, s, ImpactAgent.Run(s, p)))
    ensures ImpactFollows(s, t, p) && t.result == None
  {
    DecidingRuns(q);
    hide PlannedAgents, ImpactAgent.Build;
  }

  lemma RiskStep(q: Query, s: AgentState, t: AgentState, toolFails: bool)
    requires FullRun(q) && Before(q, 3, s)
    requires t == Apply(s, StepUpdate(q, RiskAssessment, s, RiskAgent.Run(s, toolFails)))
    ensures t.risk == RiskAgent.Assess(s) && t.errors == s.errors && t.analysis == s.analysis && t.impact == s.impact
  {
    DecidingRuns(q);
    hide PlannedAgents, RiskAgent.Assess;
  }

  /** The decision a run reaches from the state before the decision node. */
  function DecisionOf(q: Query, s: AgentState, tools: DecisionAgent.ToolAnswers): Decision {
    if DecisionMaking !in PlannedAgents(q) then NO_DECISION
    else if q.request.Some? then DecisionAgent.DecideStructured(s)
    else DecisionAgent.Decide(s, tools)
  }

  lemma DecisionStep(q: Query, s: AgentState, t: AgentState, tools: DecisionAgent.ToolAnswers)
    requires Before(q, 4, s)
    requires t == Apply(s, StepUpdate(q, DecisionMaking, s, DecisionAgent.Run(s, tools)))
    ensures t.decision == DecisionOf(q, s, tools)
  {
    hide PlannedAgents, DecisionAgent.DecideStructured, DecisionAgent.Decide;
  }

  lemma ApprovalStep(q: Query, s: AgentState, t: AgentState)
    requires Before(q, 5, s)
    requires t == Apply(s, StepUpdate(q, HumanApproval, s, ApprovalAgent.Run(s)))
    ensures t.approval == if HumanApproval in PlannedAgents(q) then ApprovalAgent.Build(s) else NO_APPROVAL
  {
    hide PlannedAgents, ApprovalAgent.Build;
  }

  lemma SummaryStep(q: Query, s: AgentState, t: AgentState)
    requires Before(q, 6, s)
    requires t == Apply(s, StepUpdate(q, ExecutiveSummary, s, SummaryAgent.Run(s)))
    ensures t.summary == if ExecutiveSummary in PlannedAgents(q) then SummaryAgent.Build(s) else NO_SUMMARY
  {
    hide PlannedAgents, SummaryAgent.Build;
  }

  // ---------------------------------------------------------------- evidence

  /** Values are at hand exactly when the analysis found the primary pair. */
  lemma ValuesNeedThePair(s: AgentState, t: AgentState, answer: AnalysisAgent.RepositoryAnswer)
    requires Analyzed(s, t, answer)
    ensures var (control, treatment) := ImpactAgent.Values(t);
            control.Some? && treatment.Some? <==> t.analysis.status == AnalysisCompleted
    ensures t.analysis.status == AnalysisCompleted <==>
              answer.Resolved? && AnalysisAgent.PairOf(answer.metrics, answer.experiment.primaryMetric).Some?
    ensures t.analysis.status != AnalysisCompleted ==> t.analysis.guardrails == []
  {
    hide LastMatch, AnalysisAgent.Compare, AnalysisAgent.Guardrails, NamesOf, AnalysisAgent.MatchingCitations,
      AnalysisAgent.ExperimentId, AnalysisAgent.MissingPairNote, AnalysisAgent.NO_CITATIONS_NOTE,
      AnalysisAgent.AnalysisConfidence;
    NothingMatches(if t.analysis.primaryMetric != "" then t.analysis.primaryMetric else t.metadata.primaryMetric);
  }

  lemma NothingMatches(name: string)
    ensures LastMatch([], name, "control") == None
  {
  }

  /** If both values are at hand, the absolute-lift call on them succeeds. */
  predicate LiftComputed(s: AgentState, p: ImpactAgent.ImpactInputs) {
    var (control, treatment) := ImpactAgent.Values(s);
    control.Some? && treatment.Some? ==> p.lifts.absolute(control.value, treatment.value).Some?
  }

  /** The impact is estimated, and no error is logged, exactly when the lift of an available pair was computed. */
  lemma EstimateNeedsThePair(s: AgentState, t: AgentState, p: ImpactAgent.ImpactInputs)
    requires ImpactFollows(s, t, p)
    requires var (control, treatment) := ImpactAgent.Values(s);
             control.Some? && treatment.Some? <==> s.analysis.status == AnalysisCompleted
    ensures t.impact.status == Estimated <==> s.analysis.status == AnalysisCompleted && LiftComputed(s, p)
    ensures t.errors == [] <==> s.errors == [] && LiftComputed(s, p)
  {
    hide ImpactAgent.Values, ImpactAgent.ZERO_BASELINE_NOTE, ImpactAgent.OBSERVED_ONLY_NOTE,
      ImpactAgent.NO_ESTIMATE_NOTE, ImpactAgent.NO_ANNUALIZED_NOTE;
  }

  /** If the stored metrics hold the primary pair, the absolute-lift call on its values succeeds. */
  predicate LiftAnswered(env: Environment) {
    match env.repository
    case Resolved(e, metrics) =>
      (match AnalysisAgent.PairOf(metrics, e.primaryMetric)
       case Some(pair) => env.impact.lifts.absolute(pair.controlValue, pair.treatmentValue).Some?
       case None => true)
    case _ => true
  }

  /** The values that the impact agent submits are those of the stored pair. */
  lemma LiftOfStoredPair(s: AgentState, t: AgentState, env: Environment)
    requires Analyzed(s, t, env.repository)
    ensures LiftComputed(t, env.impact) <==> LiftAnswered(env)
  {
    ValuesNeedThePair(s, t, env.repository);
    hide AnalysisAgent.Guardrails, NamesOf, AnalysisAgent.MatchingCitations, LastMatch, AnalysisAgent.PairOf,
      AnalysisAgent.ExperimentId, AnalysisAgent.MissingPairNote, AnalysisAgent.NO_CITATIONS_NOTE,
      AnalysisAgent.AnalysisConfidence;
  }

  /** The registered tool never fails on the values it is given. */
  lemma RegisteredLiftsAnswer(env: Environment)
    requires ImpactAgent.RegisteredLifts(env.impact.lifts)
    ensures LiftAnswered(env)
  {
    hide AnalysisAgent.PairOf;
  }

  /** `Guardrails` finds every other metric stored for both variants, and nothing else. */
  lemma {:induction false} GuardrailsMeaning(metrics: seq<Metric>, names: seq<string>, primary: string, g: Comparison)
    ensures g in AnalysisAgent.Guardrails(metrics, names, primary) <==>
              exists name :: name in names && name != primary && AnalysisAgent.PairOf(metrics, name) == Some(g)
  {
    hide AnalysisAgent.PairOf;
    if names != [] {
      var n := |names| - 1;
      GuardrailsMeaning(metrics, names[..n], primary, g);
      assert names == names[..n] + [names[n]];
      if g in AnalysisAgent.Guardrails(metrics, names[..n], primary) {
        var name :| name in names[..n] && name != primary && AnalysisAgent.PairOf(metrics, name) == Some(g);
        assert name in names;
      }
    }
  }

  /** A stored metric whose name marks it as bad when it grows, or good when it grows, moved the wrong way. */
  predicate Worse(name: string, control: real, treatment: real) {
    if ContainsAny(Lower(name), NEGATIVE_TERMS) then treatment > control
    else ContainsAny(Lower(name), POSITIVE_TERMS) && treatment < control
  }

  /** The metric is stored for both variants and got worse. */
  predicate StoredWorse(metrics: seq<Metric>, name: string) {
    match (LastMatch(metrics, name, "control"), LastMatch(metrics, name, "treatment"))
    case (Some(control), Some(treatment)) => Worse(name, control.value, treatment.value)
    case _ => false
  }

  /** Some metric other than the primary one got worse between the stored variants. */
  ghost predicate SomeGuardrailWorsened(metrics: seq<Metric>, primary: string) {
    exists name :: name != primary && StoredWorse(metrics, name)
  }

  lemma StoredWorseIsDeteriorated(metrics: seq<Metric>, name: string)
    ensures StoredWorse(metrics, name) <==>
              AnalysisAgent.PairOf(metrics, name).Some? && Deteriorated(AnalysisAgent.PairOf(metrics, name).value)
  {
    hide LastMatch, AnalysisAgent.Round6, ContainsAny, Lower, NEGATIVE_TERMS, POSITIVE_TERMS;
  }

  lemma WorsenedGuardrails(metrics: seq<Metric>, primary: string)
    ensures SomeGuardrailWorsened(metrics, primary) <==>
              exists g :: g in AnalysisAgent.Guardrails(metrics, NamesOf(metrics), primary) && Deteriorated(g)
  {
    hide AnalysisAgent.Guardrails, Deteriorated, AnalysisAgent.Compare, LastMatch, StoredWorse;
    if SomeGuardrailWorsened(metrics, primary) {
      var name :| name != primary && StoredWorse(metrics, name);
      StoredWorseIsDeteriorated(metrics, name);
      LastMatchSound(metrics, name, "control");
      NamesOfMeaning(metrics, name);
      GuardrailsMeaning(metrics, NamesOf(metrics), primary, AnalysisAgent.PairOf(metrics, name).value);
    }
    if g :| g in AnalysisAgent.Guardrails(metrics, NamesOf(metrics), primary) && Deteriorated(g) {
      GuardrailsMeaning(metrics, NamesOf(metrics), primary, g);
      var name :| name in NamesOf(metrics) && name != primary && AnalysisAgent.PairOf(metrics, name) == Some(g);
      StoredWorseIsDeteriorated(metrics, name);
    }
  }

  lemma {:induction false} NamesOfMeaning(metrics: seq<Metric>, name: string)
    ensures name in NamesOf(metrics) <==> exists m :: m in metrics && m.metricName == name
  {
    if metrics != [] {
      var n := |metrics| - 1;
      NamesOfMeaning(metrics[..n], name);
      assert metrics == metrics[..n] + [metrics[n]];
    }
  }

  // ---------------------------------------------------------------- the decision, on any assessed state

  ghost predicate SomeDeteriorated(a: Analysis) { exists g :: g in a.guardrails && Deteriorated(g) }

  /** Before the decision: the risk was assessed on the same analysis, and only completed analyses have guardrails. */
  ghost predicate ReadyToDecide(assessed: AgentState, s: AgentState) {
    && s.risk == RiskAgent.Assess(assessed) && s.analysis == assessed.analysis && s.impact == assessed.impact
    && (s.analysis.status != AnalysisCompleted ==> s.analysis.guardrails == [])
  }

  /** The branch of `Decide` that each of the two strong recommendations comes from. */
  lemma DecideBranches(s: AgentState, tools: DecisionAgent.ToolAnswers)
    ensures var d := DecisionAgent.Decide(s, tools);
            && (d.recommendation == Rollback <==>
                  s.errors == [] && !DecisionAgent.Insufficient(s) && DecisionAgent.HarmfulIssues(s) != [])
            && (d.recommendation == Rollback ==>
                  d.status == Decided && d.approvalRequired && d.blockingIssues == FirstOccurrences(DecisionAgent.HarmfulIssues(s)))
            && (d.recommendation == Rollout <==>
                  && s.errors == [] && !DecisionAgent.Insufficient(s) && DecisionAgent.HarmfulIssues(s) == []
                  && DecisionAgent.LiftDirection(s) == DecisionAgent.PositiveDirection && !DecisionAgent.PrimaryWorsened(s.analysis)
                  && DecisionAgent.ValidationPasses(s, tools) && !DecisionAgent.NeedsData(s)
                  && DecisionAgent.BusinessPositive(s.impact) && s.risk.level in {LowRisk, MediumRisk})
            && (d.recommendation == Rollout ==> d.status == Decided && d.approvalRequired && d.blockingIssues == FirstOccurrences([]))
  {
    hide DecisionAgent.HarmfulIssues, DecisionAgent.LiftDirection, DecisionAgent.PrimaryWorsened,
      DecisionAgent.BusinessPositive, DecisionAgent.NeedsData, DecisionAgent.Insufficient, DecisionAgent.Gaps,
      DecisionAgent.ErrorIssues, DecisionAgent.Limitations, DecisionAgent.FirstCitations, DecisionAgent.AllCitations,
      DecisionAgent.ScoredConfidence, DecisionAgent.INSUFFICIENT_ISSUES, FirstOccurrences, DecisionAgent.ValidationPasses;
  }

  /** The branch that each other recommendation, each status and the approval come from. */
  lemma DecideOutcomes(s: AgentState, tools: DecisionAgent.ToolAnswers)
    ensures var d := DecisionAgent.Decide(s, tools);
            var open := s.errors == [] && !DecisionAgent.Insufficient(s) && DecisionAgent.HarmfulIssues(s) == [];
            var fell := DecisionAgent.LiftDirection(s) == DecisionAgent.NegativeDirection || DecisionAgent.PrimaryWorsened(s.analysis);
            && (d.recommendation == DoNotRollout <==> open && fell)
            && (d.recommendation == ContinueExperiment <==>
                  && open && !fell && DecisionAgent.LiftDirection(s) == DecisionAgent.PositiveDirection
                  && DecisionAgent.BusinessPositive(s.impact)
                  && (!DecisionAgent.ValidationPasses(s, tools) || DecisionAgent.NeedsData(s)))
            && d.recommendation in {Rollback, DoNotRollout, Rollout, ContinueExperiment, NeedsMoreData}
            && (d.status == Decided <==> d.recommendation in {Rollback, DoNotRollout, Rollout})
            && (d.approvalRequired <==> d.status == Decided)
            && (d.status == Blocked <==> s.errors != [])
            && (d.status == DecisionInsufficient <==> s.errors == [] && DecisionAgent.Insufficient(s))
            && d.status in {Decided, Blocked, DecisionInsufficient, NeedsMoreDataStatus}
            && d.confidence == (if d.status == DecisionInsufficient then UnknownConfidence
                                else if d.status == Decided && tools.confidence.Some? then tools.confidence.value else Low)
  {
    hide DecisionAgent.HarmfulIssues, DecisionAgent.LiftDirection, DecisionAgent.PrimaryWorsened,
      DecisionAgent.BusinessPositive, DecisionAgent.NeedsData, DecisionAgent.Insufficient, DecisionAgent.Gaps,
      DecisionAgent.ErrorIssues, DecisionAgent.Limitations, DecisionAgent.FirstCitations, DecisionAgent.AllCitations,
      DecisionAgent.INSUFFICIENT_ISSUES, FirstOccurrences, DecisionAgent.ValidationPasses;
  }

  lemma HarmfulExactly(assessed: AgentState, s: AgentState)
    requires ReadyToDecide(assessed, s)
    ensures DecisionAgent.HarmfulIssues(s) != [] <==> SomeDeteriorated(s.analysis)
    ensures FirstOccurrences(DecisionAgent.HarmfulIssues(s)) == FirstOccurrences(DeterioratedDetails(s.analysis.guardrails))
    ensures SomeDeteriorated(s.analysis) ==> !DecisionAgent.Insufficient(s)
  {
    hide RiskAgent.Assess, DecisionAgent.HarmfulIssues, DeterioratedDetails, Deteriorated, FirstOccurrences,
      DecisionAgent.AllCitations;
    DecisionAgent.HarmfulIssuesMeaning(s, assessed);
    var details := DeterioratedDetails(s.analysis.guardrails);
    FirstOccurrencesIdempotent(details, []);
    assert FirstOccurrences(details) + [] == FirstOccurrences(details) && details + [] == details;
  }

  lemma RollbackDecision(assessed: AgentState, s: AgentState, tools: DecisionAgent.ToolAnswers)
    requires ReadyToDecide(assessed, s)
    ensures var d := DecisionAgent.Decide(s, tools);
            && (d.recommendation == Rollback <==> s.errors == [] && SomeDeteriorated(s.analysis))
            && (d.recommendation == Rollback ==>
                  d.status == Decided && d.approvalRequired
                  && d.blockingIssues == FirstOccurrences(DeterioratedDetails(s.analysis.guardrails)))
  {
    hide *;
    HarmfulExactly(assessed, s);
    DecideBranches(s, tools);
  }

  /** The evidence a rollout rests on. */
  ghost predicate RolloutEvidence(s: AgentState) {
    && s.analysis.status == AnalysisCompleted && s.impact.status == Estimated
    && DecisionAgent.LiftDirection(s) == DecisionAgent.PositiveDirection && DecisionAgent.BusinessPositive(s.impact)
    && !DecisionAgent.PrimaryWorsened(s.analysis) && s.analysis.significance.Some?
    && !SomeDeteriorated(s.analysis)
    && s.risk.score.Some? && |s.risk.factors| <= 1
    && forall f :: f in s.risk.factors ==> f.severity == MediumSeverity && f.category != GuardrailRisk
  }

  /** The level is low or medium exactly when at most one factor, a medium non-guardrail one, was found. */
  lemma ManageableLevel(assessed: AgentState)
    requires !SomeDeteriorated(assessed.analysis)
    ensures var risk := RiskAgent.Assess(assessed);
            risk.level in {LowRisk, MediumRisk} <==>
              risk.score.Some? && |risk.factors| <= 1
              && forall f :: f in risk.factors ==> f.severity == MediumSeverity && f.category != GuardrailRisk
  {
    RiskAgent.FactorsAreOrdinary(assessed);
    NoGuardrailFactors(assessed.analysis.guardrails);
    RiskAgent.ManageableRisk(assessed);
    assert forall f :: f in RiskAgent.Factors(assessed) ==> f.category != GuardrailRisk by {
      hide RiskAgent.FactorsBefore, RiskAgent.FactorsAfter, RiskAgent.GuardrailFactors;
    }
    hide RiskAgent.Factors, RiskAgent.ScoreOf, FirstOccurrences, RiskAgent.CategoryDetails, RiskAgent.Citations,
      RiskAgent.Limitations, RiskAgent.HasContext, RiskAgent.StatusOf, RiskAgent.ConfidenceOf,
      RiskAgent.NO_CONTEXT_NOTE, RiskAgent.Ordinary;
  }

  lemma {:induction false} NoGuardrailFactors(guardrails: seq<Comparison>)
    requires forall g :: g in guardrails ==> !Deteriorated(g)
    ensures RiskAgent.GuardrailFactors(guardrails) == []
  {
    hide Deteriorated;
    if guardrails != [] {
      NoGuardrailFactors(guardrails[..|guardrails| - 1]);
    }
  }

  lemma ManageableIsAssessed(assessed: AgentState)
    requires RiskAgent.Assess(assessed).level in {LowRisk, MediumRisk}
    ensures RiskAgent.Assess(assessed).status == RiskAgent.StatusOf(assessed)
  {
    hide RiskAgent.Factors, RiskAgent.ScoreOf, FirstOccurrences, RiskAgent.CategoryDetails, RiskAgent.Citations,
      RiskAgent.Limitations, RiskAgent.HasContext, RiskAgent.ConfidenceOf, RiskAgent.NO_CONTEXT_NOTE;
  }

  /** Enough data, a positive estimate and a manageable level are what the evidence says. */
  lemma EvidenceExactly(assessed: AgentState, s: AgentState)
    requires ReadyToDecide(assessed, s)
    ensures RolloutEvidence(s) <==>
              && !DecisionAgent.Insufficient(s) && !SomeDeteriorated(s.analysis)
              && DecisionAgent.LiftDirection(s) == DecisionAgent.PositiveDirection && !DecisionAgent.PrimaryWorsened(s.analysis)
              && !DecisionAgent.NeedsData(s) && DecisionAgent.BusinessPositive(s.impact) && s.risk.level in {LowRisk, MediumRisk}
  {
    hide DecisionAgent.LiftDirection, DecisionAgent.PrimaryWorsened, DecisionAgent.AllCitations, SomeDeteriorated,
      RiskAgent.Assess;
    if !SomeDeteriorated(s.analysis) {
      ManageableLevel(assessed);
    }
    if s.risk.level in {LowRisk, MediumRisk} {
      ManageableIsAssessed(assessed);
    }
  }

  lemma RolloutDecision(assessed: AgentState, s: AgentState, tools: DecisionAgent.ToolAnswers)
    requires ReadyToDecide(assessed, s)
    ensures var d := DecisionAgent.Decide(s, tools);
            && (d.recommendation == Rollout <==> s.errors == [] && RolloutEvidence(s) && DecisionAgent.ValidationPasses(s, tools))
            && (d.recommendation == Rollout ==> d.status == Decided && d.approvalRequired && d.blockingIssues == [])
  {
    assert FirstOccurrences([]) == [];
    hide *;
    HarmfulExactly(assessed, s);
    EvidenceExactly(assessed, s);
    DecideBranches(s, tools);
  }

  // ---------------------------------------------------------------- whole runs

  lemma FinalFields(q: Query, agents: Agents, states: seq<AgentState>)
    requires IsRun(q, agents, states) && Behave(agents)
    ensures |states| == 8
    ensures states[7].analysis == states[4].analysis == states[3].analysis == states[2].analysis
    ensures states[7].impact == states[4].impact == states[3].impact
    ensures states[7].risk == states[4].risk
    ensures states[7].decision == states[6].decision == states[5].decision
    ensures states[7].approval == states[6].approval && states[6].result == states[3].result
  {
    RunsOnlyGrow(q, agents, states, 2, 3);
    RunsOnlyGrow(q, agents, states, 3, 4);
    RunsOnlyGrow(q, agents, states, 3, 6);
    RunsOnlyGrow(q, agents, states, 4, 7);
    RunsOnlyGrow(q, agents, states, 5, 6);
    RunsOnlyGrow(q, agents, states, 6, 7);
    hide IsRun, Behave;
  }

  lemma FinalFieldsOfDefaultRun(q: Query, env: Environment, states: seq<AgentState>)
    requires DefaultRun(q, env, states)
    ensures |states| == 8
    ensures states[7].analysis == states[4].analysis == states[3].analysis == states[2].analysis
    ensures states[7].impact == states[4].impact == states[3].impact
    ensures states[7].risk == states[4].risk
    ensures states[7].decision == states[6].decision == states[5].decision
    ensures states[7].approval == states[6].approval && states[6].result == states[3].result
  {
    hide *;
    DefaultRunIsARun(q, env, states);
    DefaultAgentsBehave(env);
    FinalFields(q, DefaultAgents(env), states);
  }

  lemma FirstSteps(q: Query, env: Environment, states: seq<AgentState>)
    requires DefaultRun(q, env, states) && FullRun(q)
    ensures |states| == 8
    ensures states[1].errors == [] <==> env.retrieval.Retrieved?
    ensures Analyzed(states[1], states[2], env.repository) && ImpactFollows(states[2], states[3], env.impact)
    ensures states[3].result == None
  {
    hide *;
    OrderNames();
    DefaultRunIsARun(q, env, states);
    FirstFields(q);
    DefaultStep(q, env, states, 1);
    Dispatch(states[0], env);
    RetrievalStep(q, states[0], states[1], env.retrieval);
    StateBefore(q, env, states, 1);
    DefaultStep(q, env, states, 2);
    Dispatch(states[1], env);
    AnalysisStep(q, states[1], states[2], env.repository, env.structured);
    StateBefore(q, env, states, 2);
    DefaultStep(q, env, states, 3);
    Dispatch(states[2], env);
    ImpactStep(q, states[2], states[3], env.impact);
  }

  lemma AssessmentOfRun(q: Query, env: Environment, states: seq<AgentState>)
    requires DefaultRun(q, env, states) && FullRun(q)
    ensures |states| == 8 && states[4].risk == RiskAgent.Assess(states[3]) && states[4].errors == states[3].errors
  {
    hide *;
    OrderNames();
    DefaultRunIsARun(q, env, states);
    StateBefore(q, env, states, 3);
    DefaultStep(q, env, states, 4);
    Dispatch(states[3], env);
    RiskStep(q, states[3], states[4], env.riskToolFails);
  }

  lemma DecisionOfRun(q: Query, env: Environment, states: seq<AgentState>)
    requires DefaultRun(q, env, states)
    ensures |states| == 8 && states[7].decision == states[5].decision == DecisionOf(q, states[4], env.tools)
  {
    hide *;
    OrderNames();
    FinalFieldsOfDefaultRun(q, env, states);
    StateBefore(q, env, states, 4);
    DefaultStep(q, env, states, 5);
    Dispatch(states[4], env);
    DecisionStep(q, states[4], states[5], env.tools);
  }

  /**
   In every full run, the analysis is completed exactly when the stored metrics hold the primary
   pair; the impact is then estimated unless the lift call failed; and the decision finds no logged
   errors exactly when retrieval, the repository and that call succeeded.
   */
  lemma EvidenceOfRun(q: Query, env: Environment, states: seq<AgentState>)
    requires DefaultRun(q, env, states) && FullRun(q)
    ensures |states| == 8 && ReadyToDecide(states[3], states[4])
    ensures states[7].analysis.status == AnalysisCompleted <==>
              env.repository.Resolved?
              && AnalysisAgent.PairOf(env.repository.metrics, env.repository.experiment.primaryMetric).Some?
    ensures states[7].impact.status == Estimated <==> states[7].analysis.status == AnalysisCompleted && LiftAnswered(env)
    ensures states[4].errors == [] <==>
              env.retrieval.Retrieved? && !env.repository.RepositoryRaised? && LiftAnswered(env)
  {
    hide *;
    FirstSteps(q, env, states);
    AssessmentOfRun(q, env, states);
    FinalFieldsOfDefaultRun(q, env, states);
    ValuesNeedThePair(states[1], states[2], env.repository);
    EstimateNeedsThePair(states[2], states[3], env.impact);
    LiftOfStoredPair(states[1], states[2], env);
    AnalysisErrors(states[1], states[2], env.repository);
    Ready(states[3], states[4]);
  }

  lemma AnalysisErrors(s: AgentState, t: AgentState, answer: AnalysisAgent.RepositoryAnswer)
    requires Analyzed(s, t, answer)
    ensures t.errors == [] <==> s.errors == [] && !answer.RepositoryRaised?
  {
  }

  lemma Ready(assessed: AgentState, s: AgentState)
    requires s.risk == RiskAgent.Assess(assessed) && s.analysis == assessed.analysis && s.impact == assessed.impact
    requires s.analysis.status != AnalysisCompleted ==> s.analysis.guardrails == []
    ensures ReadyToDecide(assessed, s)
  {
    hide RiskAgent.Assess;
  }

  /** Without a full plan, no run recommends a rollback or a rollout or asks for approval. */
  lemma OtherPlansDecideNothing(q: Query, s: AgentState, tools: DecisionAgent.ToolAnswers)
    requires !FullRun(q) && Before(q, 4, s)
    ensures var d := DecisionOf(q, s, tools);
            d.recommendation in {NeedsMoreData, UnknownRecommendation} && !d.approvalRequired
  {
    DecidingRuns(q);
    hide PlannedAgents, DecisionAgent.Decide;
  }

  /**
   Rollback exactness: a run recommends a rollback if and only if it is a full run, nothing had gone
   wrong before the decision, and some guardrail metric of its analysis deteriorated. The blocking
   issues are then those guardrails, each once and in order, whatever the tools answer.
   */
  lemma RollbackExactly(q: Query, env: Environment, states: seq<AgentState>)
    requires DefaultRun(q, env, states)
    ensures |states| == 8
    ensures var d := states[7].decision;
            && (d.recommendation == Rollback <==> FullRun(q) && states[4].errors == [] && SomeDeteriorated(states[7].analysis))
            && (d.recommendation == Rollback ==>
                  d.status == Decided && d.approvalRequired
                  && d.blockingIssues == FirstOccurrences(DeterioratedDetails(states[7].analysis.guardrails)))
  {
    hide *;
    FinalFieldsOfDefaultRun(q, env, states);
    DecisionOfRun(q, env, states);
    if FullRun(q) {
      FullDecision(q, states[4], env.tools);
      EvidenceOfRun(q, env, states);
      RollbackDecision(states[3], states[4], env.tools);
    } else {
      OrderNames();
      StateBefore(q, env, states, 4);
      OtherPlansDecideNothing(q, states[4], env.tools);
    }
  }

  lemma FullDecision(q: Query, s: AgentState, tools: DecisionAgent.ToolAnswers)
    requires FullRun(q)
    ensures DecisionOf(q, s, tools) == DecisionAgent.Decide(s, tools)
  {
    hide DecisionAgent.Decide;
  }

  /**
   The same from the outside: a full run recommends a rollback if and only if its services answered,
   the stored metrics hold the primary pair, and some other stored metric got worse.
   */
  lemma RollbackFromStoredMetrics(q: Query, env: Environment, states: seq<AgentState>)
    requires DefaultRun(q, env, states) && FullRun(q)
    ensures |states| == 8
    ensures states[7].decision.recommendation == Rollback <==>
              && env.retrieval.Retrieved? && LiftAnswered(env) && env.repository.Resolved?
              && AnalysisAgent.PairOf(env.repository.metrics, env.repository.experiment.primaryMetric).Some?
              && SomeGuardrailWorsened(env.repository.metrics, env.repository.experiment.primaryMetric)
  {
    hide *;
    RollbackExactly(q, env, states);
    EvidenceOfRun(q, env, states);
    FirstSteps(q, env, states);
    FinalFieldsOfDefaultRun(q, env, states);
    DeterioratedInStore(states[1], states[2], env.repository);
  }

  lemma PlannerIsFirst(k: nat)
    requires 0 < k < |NODE_ORDER|
    ensures NODE_ORDER[k] != Planner
  {
  }

  lemma RegisteredLiftIsSome(lifts: ImpactAgent.LiftTools, control: real, treatment: real)
    requires ImpactAgent.RegisteredLifts(lifts)
    ensures lifts.absolute(control, treatment).Some?
  {
    assert lifts.absolute(control, treatment) == ImpactAgent.CalculateAbsoluteLift(control, treatment);
  }

  lemma RegisteredLiftsNeverRaise(s: AgentState, p: ImpactAgent.ImpactInputs)
    requires ImpactAgent.RegisteredLifts(p.lifts)
    ensures ImpactAgent.Run(s, p).errors == []
  {
    var (control, treatment) := ImpactAgent.Values(s);
    hide ImpactAgent.Values, ImpactAgent.ZERO_BASELINE_NOTE, ImpactAgent.OBSERVED_ONLY_NOTE,
      ImpactAgent.NO_ESTIMATE_NOTE, ImpactAgent.NO_ANNUALIZED_NOTE;
    if control.Some? && treatment.Some? {
      RegisteredLiftIsSome(p.lifts, control.value, treatment.value);
    }
    assert ImpactAgent.Build(s, p).Ok?;
    hide ImpactAgent.Build;
  }

  ghost predicate NoErrorsOf(node: Node, s: AgentState) { forall error :: error in s.errors ==> error.author != Known(node) }

  lemma NoNewErrors(node: Node, s: AgentState, own: Node, u: Update)
    requires NoErrorsOf(node, s) && MergedUpdate(own, s, u) && (own == node ==> u.errors == [])
    ensures NoErrorsOf(node, Apply(s, u))
  {
    hide FieldsOwned, Extends;
  }

  lemma NoErrorsYet(node: Node, s: AgentState)
    requires s.errors == []
    ensures NoErrorsOf(node, s)
  {
  }

  lemma ErrorOf(node: Node, s: AgentState, k: nat)
    requires k < |s.errors| && s.errors[k].author == Known(node)
    ensures !NoErrorsOf(node, s)
  {
  }

  lemma MergeKeepsErrors(node: Node, s: AgentState, agents: Agents)
    ensures agents(node, s).errors == [] ==> NodeUpdate(node, s, agents).errors == []
  {
  }

  /** With the registered lift tools no run, whatever its plan, logs an error of the impact agent. */
  lemma {:induction false} NoImpactErrors(q: Query, env: Environment, states: seq<AgentState>, k: nat)
    requires DefaultRun(q, env, states) && ImpactAgent.RegisteredLifts(env.impact.lifts) && k < |NODE_ORDER|
    ensures |states| == 8 && NoErrorsOf(BusinessImpact, states[k])
  {
    hide *;
    DefaultRunIsARun(q, env, states);
    if k == 0 {
      FirstFields(q);
      NoErrorsYet(BusinessImpact, states[0]);
    } else {
      var node, s := NODE_ORDER[k], states[k - 1];
      PlannerIsFirst(k);
      NoImpactErrors(q, env, states, k - 1);
      DefaultAgentsBehave(env);
      StepInto(q, DefaultAgents(env), states, k);
      NodeBehaves(node, s, DefaultAgents(env));
      if node == BusinessImpact {
        DefaultAgentIs(env, node, s);
        OrderNames();
        Dispatch(s, env);
        RegisteredLiftsNeverRaise(s, env.impact);
        MergeKeepsErrors(node, s, DefaultAgents(env));
      }
      NoNewErrors(BusinessImpact, s, node, NodeUpdate(node, s, DefaultAgents(env)));
    }
  }

  /** A failed lift call on the stored pair is logged as an error of the impact agent, and the decision is blocked. */
  lemma FailedLiftBlocks(q: Query, env: Environment, states: seq<AgentState>)
    requires DefaultRun(q, env, states) && FullRun(q) && !LiftAnswered(env)
    ensures |states| == 8
    ensures states[3].errors
         == states[2].errors + [ErrorRecord("business_impact_failed", ImpactAgent.NO_LIFT_TO_FORMAT, Known(BusinessImpact))]
    ensures states[7].decision.status == Blocked && states[7].decision.recommendation == NeedsMoreData
  {
    hide *;
    FirstSteps(q, env, states);
    LiftOfStoredPair(states[1], states[2], env);
    FailedLiftRaises(states[2], states[3], env.impact);
    EvidenceOfRun(q, env, states);
    DecisionOfRun(q, env, states);
    FullDecision(q, states[4], env.tools);
    ErrorsBlock(states[4], env.tools);
  }

  lemma FailedLiftRaises(s: AgentState, t: AgentState, p: ImpactAgent.ImpactInputs)
    requires ImpactFollows(s, t, p) && !LiftComputed(s, p)
    ensures t.errors == s.errors + [ErrorRecord("business_impact_failed", ImpactAgent.NO_LIFT_TO_FORMAT, Known(BusinessImpact))]
  {
    hide ImpactAgent.Values, ImpactAgent.NO_LIFT_TO_FORMAT;
  }

  lemma ErrorsBlock(s: AgentState, tools: DecisionAgent.ToolAnswers)
    requires s.errors != []
    ensures DecisionAgent.Decide(s, tools).status == Blocked && DecisionAgent.Decide(s, tools).recommendation == NeedsMoreData
  {
    hide FirstOccurrences, DecisionAgent.FirstCitations, DecisionAgent.AllCitations, DecisionAgent.ErrorIssues,
      DecisionAgent.Limitations;
  }

  /** A lift tool that always fails, as a replacement registered under the same name could. */
  const FAILING_LIFTS := ImpactAgent.LiftTools((b, t) => None, (b, a, t) => None)

  /** An experiment whose primary metric went from 1 to 2, and services that all answer but the lift tools. */
  function FailingEnvironment(structured: Envelope, tools: DecisionAgent.ToolAnswers): Environment {
    Environment(
      Retrieved([], []),
      AnalysisAgent.Resolved(
        AnalysisAgent.Experiment("db", "exp", "conversion", [], ""),
        [Metric("conversion", "control", 1.0, None, None), Metric("conversion", "treatment", 2.0, None, None)]),
      structured, ImpactAgent.ImpactInputs(FAILING_LIFTS, None, false, "", None), false, tools)
  }

  lemma FailingLift(structured: Envelope, tools: DecisionAgent.ToolAnswers)
    ensures !LiftAnswered(FailingEnvironment(structured, tools))
  {
    var metrics := FailingEnvironment(structured, tools).repository.metrics;
    assert metrics[..1][..0] == [];
    assert LastMatch(metrics, "conversion", "treatment") == Some(metrics[1]);
    assert LastMatch(metrics[..1], "conversion", "control") == Some(metrics[0]);
  }

  /** With such a replacement this run fails in the impact agent; with the registered tools no run does. */
  lemma ReplacedLiftToolBlocks(structured: Envelope, tools: DecisionAgent.ToolAnswers, states: seq<AgentState>)
    requires DefaultRun(Query(DecisionSupport, [], None, NotAMapping, None), FailingEnvironment(structured, tools), states)
    ensures |states| == 8 && !NoErrorsOf(BusinessImpact, states[3]) && states[7].decision.status == Blocked
  {
    var q, env := Query(DecisionSupport, [], None, NotAMapping, None), FailingEnvironment(structured, tools);
    assert FullRun(q);
    hide *;
    FailingLift(structured, tools);
    FailedLiftBlocks(q, env, states);
    ErrorOf(BusinessImpact, states[3], |states[2].errors|);
  }

  /** With the registered lift tools, retrieval and the stored metrics alone decide about a rollback. */
  lemma RollbackWithRegisteredTools(q: Query, env: Environment, states: seq<AgentState>)
    requires DefaultRun(q, env, states) && FullRun(q) && ImpactAgent.RegisteredLifts(env.impact.lifts)
    ensures |states| == 8
    ensures states[7].decision.recommendation == Rollback <==>
              && env.retrieval.Retrieved? && env.repository.Resolved?
              && AnalysisAgent.PairOf(env.repository.metrics, env.repository.experiment.primaryMetric).Some?
              && SomeGuardrailWorsened(env.repository.metrics, env.repository.experiment.primaryMetric)
  {
    hide *;
    RegisteredLiftsAnswer(env);
    RollbackFromStoredMetrics(q, env, states);
  }

  lemma DeterioratedInStore(s: AgentState, t: AgentState, answer: AnalysisAgent.RepositoryAnswer)
    requires Analyzed(s, t, answer)
    ensures SomeDeteriorated(t.analysis) <==>
              && answer.Resolved? && AnalysisAgent.PairOf(answer.metrics, answer.experiment.primaryMetric).Some?
              && SomeGuardrailWorsened(answer.metrics, answer.experiment.primaryMetric)
  {
    hide AnalysisAgent.PairOf, AnalysisAgent.Guardrails, NamesOf, AnalysisAgent.MatchingCitations,
      SomeGuardrailWorsened, Deteriorated;
    if answer.Resolved? {
      WorsenedGuardrails(answer.metrics, answer.experiment.primaryMetric);
    }
  }

  /**
   Rollout safety, exactly: a run recommends a rollout if and only if it is a full run with no logged
   errors whose evidence is complete and positive, with at most one, medium and non-guardrail, risk
   factor, and the evidence check did not object. Approval is then always required.
   */
  lemma RolloutExactly(q: Query, env: Environment, states: seq<AgentState>)
    requires DefaultRun(q, env, states)
    ensures |states| == 8
    ensures var d := states[7].decision;
            && (d.recommendation == Rollout <==>
                  FullRun(q) && states[4].errors == [] && RolloutEvidence(states[7])
                  && DecisionAgent.ValidationPasses(states[4], env.tools))
            && (d.recommendation == Rollout ==> d.status == Decided && d.approvalRequired && d.blockingIssues == [])
  {
    hide *;
    DecisionOfRun(q, env, states);
    if FullRun(q) {
      FullDecision(q, states[4], env.tools);
      EvidenceOfRun(q, env, states);
      FinalFieldsOfDefaultRun(q, env, states);
      EvidenceKept(states[4], states[7]);
      RolloutDecision(states[3], states[4], env.tools);
    } else {
      OrderNames();
      StateBefore(q, env, states, 4);
      OtherPlansDecideNothing(q, states[4], env.tools);
    }
  }

  /** The stored values of the primary metric, and what its treatment row says about significance. */
  predicate PrimaryImprovedOrEqual(metrics: seq<Metric>, primary: string) {
    match (LastMatch(metrics, primary, "control"), LastMatch(metrics, primary, "treatment"))
    case (Some(control), Some(treatment)) => control.value <= treatment.value && treatment.pValue.Some?
    case _ => false
  }

  /**
   Rollout safety from the outside: a run that recommends a rollout answered a deciding question, had
   its sources, and rests on a stored primary pair that did not fall and has a p-value, while no other
   stored metric got worse.
   */
  lemma RolloutFromStoredMetrics(q: Query, env: Environment, states: seq<AgentState>)
    requires DefaultRun(q, env, states) && |states| == 8 && states[7].decision.recommendation == Rollout
    ensures FullRun(q) && env.retrieval.Retrieved? && env.repository.Resolved? && LiftAnswered(env)
    ensures PrimaryImprovedOrEqual(env.repository.metrics, env.repository.experiment.primaryMetric)
    ensures !SomeGuardrailWorsened(env.repository.metrics, env.repository.experiment.primaryMetric)
  {
    hide *;
    RolloutExactly(q, env, states);
    EvidenceOfRun(q, env, states);
    FirstSteps(q, env, states);
    FinalFieldsOfDefaultRun(q, env, states);
    EvidenceMeans(states[7]);
    DeterioratedInStore(states[1], states[2], env.repository);
    PrimaryInStore(states[1], states[2], env.repository);
  }

  lemma EvidenceMeans(s: AgentState)
    requires RolloutEvidence(s)
    ensures s.analysis.status == AnalysisCompleted && s.impact.status == Estimated && !SomeDeteriorated(s.analysis)
    ensures s.analysis.significance.Some? && !DecisionAgent.PrimaryWorsened(s.analysis)
  {
    hide SomeDeteriorated, DecisionAgent.PrimaryWorsened, DecisionAgent.LiftDirection, DecisionAgent.BusinessPositive;
  }

  lemma PrimaryInStore(s: AgentState, t: AgentState, answer: AnalysisAgent.RepositoryAnswer)
    requires Analyzed(s, t, answer) && answer.Resolved? && t.analysis.status == AnalysisCompleted
    ensures PrimaryImprovedOrEqual(answer.metrics, answer.experiment.primaryMetric) <==>
              t.analysis.significance.Some? && !DecisionAgent.PrimaryWorsened(t.analysis)
  {
    hide LastMatch, AnalysisAgent.Round6, AnalysisAgent.Guardrails, NamesOf, AnalysisAgent.MatchingCitations,
      AnalysisAgent.ExperimentId, AnalysisAgent.MissingPairNote, AnalysisAgent.NO_CITATIONS_NOTE,
      AnalysisAgent.AnalysisConfidence;
  }

  lemma EvidenceKept(s: AgentState, t: AgentState)
    requires s.analysis == t.analysis && s.impact == t.impact && s.risk == t.risk
    ensures RolloutEvidence(s) <==> RolloutEvidence(t)
  {
    hide SomeDeteriorated, DecisionAgent.BusinessPositive, DecisionAgent.PrimaryWorsened;
  }

  /**
   With the registered validation tool, a rollout rests on evidence that was validated: every
   required part is there and some citation supports it.
   */
  lemma ValidatedRolloutIsCited(q: Query, env: Environment, states: seq<AgentState>)
    requires DefaultRun(q, env, states) && |states| == 8
    requires DecisionAgent.RegisteredValidation(env.tools)
    requires states[7].decision.recommendation == Rollout
    ensures states[7].risk.status == Assessed && states[7].decision.citations != []
  {
    hide *;
    RolloutExactly(q, env, states);
    DecisionOfRun(q, env, states);
    FullDecision(q, states[4], env.tools);
    FinalFieldsOfDefaultRun(q, env, states);
    CitedWhenValid(states[4], env.tools);
    EvidenceOfRun(q, env, states);
    CompleteEvidenceIsAssessed(states[3], states[4], states[7]);
  }

  lemma CitedWhenValid(s: AgentState, tools: DecisionAgent.ToolAnswers)
    requires DecisionAgent.RegisteredValidation(tools) && DecisionAgent.ValidationPasses(s, tools)
    ensures DecisionAgent.Decide(s, tools).citations == DecisionAgent.FirstCitations(DecisionAgent.AllCitations(s)) != []
  {
    hide DecisionAgent.FirstCitations, DecisionAgent.AllCitations, DecisionAgent.HarmfulIssues,
      DecisionAgent.LiftDirection, DecisionAgent.PrimaryWorsened, DecisionAgent.BusinessPositive,
      DecisionAgent.NeedsData, DecisionAgent.Insufficient, DecisionAgent.Gaps, DecisionAgent.ErrorIssues,
      DecisionAgent.Limitations, DecisionAgent.ScoredConfidence, DecisionAgent.INSUFFICIENT_ISSUES, FirstOccurrences;
  }

  lemma CompleteEvidenceIsAssessed(assessed: AgentState, s: AgentState, t: AgentState)
    requires ReadyToDecide(assessed, s) && RolloutEvidence(t) && t.analysis == s.analysis && t.impact == s.impact && t.risk == s.risk
    ensures t.risk.status == Assessed
  {
    hide RiskAgent.Factors, RiskAgent.ScoreOf, FirstOccurrences, RiskAgent.CategoryDetails, RiskAgent.Citations,
      RiskAgent.Limitations, RiskAgent.HasContext, RiskAgent.ConfidenceOf, RiskAgent.NO_CONTEXT_NOTE,
      SomeDeteriorated, DecisionAgent.LiftDirection;
  }

  lemma ApprovalOfRun(q: Query, env: Environment, states: seq<AgentState>)
    requires DefaultRun(q, env, states)
    ensures |states| == 8
    ensures states[7].approval == if HumanApproval in PlannedAgents(q) then ApprovalAgent.Build(states[5]) else NO_APPROVAL
    ensures states[5].approvalInput == q.approvalInput
  {
    hide *;
    OrderNames();
    FinalFieldsOfDefaultRun(q, env, states);
    StateBefore(q, env, states, 5);
    BeforeKeepsInput(q, states[5]);
    DefaultStep(q, env, states, 6);
    Dispatch(states[5], env);
    ApprovalStep(q, states[5], states[6]);
  }

  lemma BeforeKeepsInput(q: Query, s: AgentState)
    requires Before(q, 5, s)
    ensures s.approvalInput == q.approvalInput
  {
    hide NotYet;
  }

  lemma SummaryOfRun(q: Query, env: Environment, states: seq<AgentState>)
    requires DefaultRun(q, env, states)
    ensures |states| == 8
    ensures states[7].summary == if ExecutiveSummary in PlannedAgents(q) then SummaryAgent.Build(states[6]) else NO_SUMMARY
  {
    hide *;
    OrderNames();
    StateBefore(q, env, states, 6);
    DefaultStep(q, env, states, 7);
    Dispatch(states[6], env);
    SummaryStep(q, states[6], states[7]);
  }

  lemma ApprovalNeedsFullRun(q: Query, env: Environment, states: seq<AgentState>)
    requires DefaultRun(q, env, states)
    ensures |states| == 8 && (states[7].decision.approvalRequired ==> FullRun(q))
    ensures states[7].decision.recommendation in {Rollout, Rollback, DoNotRollout, ContinueExperiment} ==> FullRun(q)
  {
    hide *;
    DecisionOfRun(q, env, states);
    OrderNames();
    StateBefore(q, env, states, 4);
    if !FullRun(q) {
      OtherPlansDecideNothing(q, states[4], env.tools);
    }
  }

  /** What the record of a required or unneeded approval says about the caller's input. */
  ghost predicate Records(a: Approval, input: ApprovalInput) {
    && (a.status == Approved <==> a.required && ApprovalAgent.Says(input, "approved"))
    && (a.status == Rejected <==> a.required && ApprovalAgent.Says(input, "rejected"))
    && (a.status == RevisionRequested <==> a.required && ApprovalAgent.Says(input, "revision_requested"))
    && (a.status == Pending <==> a.required && forall word :: word in ApprovalAgent.WORDS ==> !ApprovalAgent.Says(input, word))
    && a.feedback == (if a.required && input.Mapping? && input.feedback.Some? then Strip(input.feedback.value) else "")
    && a.actor == (if a.required && input.Mapping? && input.actor.Some? && !Blank(input.actor.value)
                   then Some(Strip(input.actor.value)) else None)
  }

  lemma BuiltRecords(s: AgentState)
    ensures ApprovalAgent.Build(s).required == s.decision.approvalRequired && Records(ApprovalAgent.Build(s), s.approvalInput)
    ensures ApprovalAgent.Build(s).status == SkippedApproval <==> !s.decision.approvalRequired
  {
    ApprovalAgent.VerdictIsTheCallers(s);
    hide ApprovalAgent.Build, ApprovalAgent.Says, Strip, Blank;
  }

  lemma NoApprovalRecords(input: ApprovalInput)
    ensures !NO_APPROVAL.required && Records(NO_APPROVAL, input) && NO_APPROVAL.status == NotRequested
  {
    hide ApprovalAgent.Says, Strip, Blank;
  }

  /**
   Approval honesty: in every run approval is required exactly if the decision says so, and the record is approved,
   rejected, sent back or pending if and only if it is required and the caller's status text, stripped and with ASCII case
   ignored, is that word, or none of the three. Nothing else in a run can approve.
   */
  lemma ApprovalIsTheCallers(q: Query, env: Environment, states: seq<AgentState>)
    requires DefaultRun(q, env, states)
    ensures |states| == 8
    ensures states[7].approval.required == states[7].decision.approvalRequired
    ensures Records(states[7].approval, q.approvalInput)
    ensures FullRun(q) ==> (states[7].approval.status == SkippedApproval <==> !states[7].decision.approvalRequired)
  {
    hide *;
    ApprovalOfRun(q, env, states);
    ApprovalNeedsFullRun(q, env, states);
    FinalFieldsOfDefaultRun(q, env, states);
    FullPlan(q, HumanApproval);
    BuiltRecords(states[5]);
    NoApprovalRecords(q.approvalInput);
  }

  lemma FullPlan(q: Query, node: Node)
    requires node != Planner
    ensures FullRun(q) ==> node in PlannedAgents(q)
  {
    DecidingRuns(q);
  }

  lemma NoVerdictInitially()
    ensures NO_APPROVAL.status == NotRequested && NO_SUMMARY.headline == NoHeadline
  {
  }

  /** The headline that claims an approved rollout appears if and only if the decision is a rollout and it was approved. */
  lemma HeadlineIsHonest(q: Query, env: Environment, states: seq<AgentState>)
    requires DefaultRun(q, env, states)
    ensures |states| == 8
    ensures states[7].summary.headline == RolloutSupportedAndApproved <==>
              states[7].decision.recommendation == Rollout && states[7].approval.status == Approved
  {
    hide *;
    SummaryOfRun(q, env, states);
    FinalFieldsOfDefaultRun(q, env, states);
    ApprovalNeedsFullRun(q, env, states);
    RolloutExactly(q, env, states);
    FullPlan(q, ExecutiveSummary);
    NoVerdictInitially();
    if states[7].decision.recommendation == Rollout {
      FirstSteps(q, env, states);
    }
    SummaryHeadline(states[6]);
  }

  lemma SummaryHeadline(s: AgentState)
    ensures SummaryAgent.Build(s).headline == RolloutSupportedAndApproved ==>
              s.decision.recommendation == Rollout && s.approval.status == Approved
    ensures s.result == None && s.decision.status == Decided && s.decision.recommendation == Rollout && s.approval.status == Approved
            ==> SummaryAgent.Build(s).headline == RolloutSupportedAndApproved
  {
    hide SummaryAgent.SummaryCitations;
  }
}
