/** The decision agent (packages/agents/decision_agent.py). */
module DecisionAgent {
  import opened Text
  import opened AgentStates
  import opened Guardrail
  import RiskAssessmentAgent

  /** The evidence-validation tool's answer. */
  datatype Validation = Validation(isValid: bool, missing: seq<string>)

  /** What the agent submits to the evidence-validation tool. */
  datatype EvidencePayload = EvidencePayload(
    hasAnalysis: bool, hasImpact: bool, hasRisk: bool, hasSignificance: bool, citationCount: nat)

  /** The tools the agent calls: validation on its payload, and a confidence; `None` stands for a failed call. */
  datatype ToolAnswers = ToolAnswers(
    validate: EvidencePayload -> Option<Validation>, confidence: Option<Confidence>)

  // ---------------------------------------------------------------- evidence

  function FirstCitations(citations: seq<Citation>): seq<Citation> {
    if citations == [] then []
    else
      var before := FirstCitations(citations[..|citations| - 1]);
      var last := citations[|citations| - 1];
      if last in before then before else before + [last]
  }

  function AllCitations(s: AgentState): seq<Citation> {
    s.analysis.citations + s.impact.citations + s.risk.citations + s.citations
  }

  /** `_decision_citations` */
  method DecisionCitations(s: AgentState) returns (citations: seq<Citation>)
    ensures citations == FirstCitations(AllCitations(s))
  {
    var all := AllCitations(s);
    citations := [];
    var seen: set<Citation> := {};
    for i := 0 to |all|
      invariant citations == FirstCitations(all[..i])
      invariant forall c :: c in seen <==> c in citations
    {
      assert all[..i + 1][..i] == all[..i];
      if all[i] in seen {
        continue;
      }
      seen := seen + {all[i]};
      citations := citations + [all[i]];
    }
    assert all[..|all|] == all;
  }

  lemma {:induction false} FirstCitationsMeaning(citations: seq<Citation>)
    ensures forall c :: c in FirstCitations(citations) <==> c in citations
  {
    if citations != [] {
      var n := |citations| - 1;
      FirstCitationsMeaning(citations[..n]);
      assert citations == citations[..n] + [citations[n]];
    }
  }

  // ---------------------------------------------------------------- harmful guardrails

  predicate GuardrailFactor(f: RiskFactor) { f.category == GuardrailRisk || f.code == GuardrailDeterioration }

  /** The stripped, non-blank details of the guardrail factors. */
  function FactorIssues(factors: seq<RiskFactor>): seq<string> {
    if factors == [] then []
    else
      var last := factors[|factors| - 1];
      FactorIssues(factors[..|factors| - 1])
      + (if GuardrailFactor(last) && Strip(last.detail) != "" then [Strip(last.detail)] else [])
  }

  function HarmfulIssues(s: AgentState): seq<string> {
    FirstOccurrences(s.risk.guardrailConcerns + FactorIssues(s.risk.factors) + DeterioratedDetails(s.analysis.guardrails))
  }

  /** `_harmful_guardrail_issues` */
  method HarmfulGuardrailIssues(s: AgentState) returns (issues: seq<string>)
    ensures issues == HarmfulIssues(s)
  {
    hide Strip, Deteriorated, Detail, GuardrailFactor;
    var concerns := s.risk.guardrailConcerns;
    var found := concerns;
    for i := 0 to |s.risk.factors|
      invariant found == concerns + FactorIssues(s.risk.factors[..i])
    {
      assert s.risk.factors[..i + 1][..i] == s.risk.factors[..i];
      var factor := s.risk.factors[i];
      if GuardrailFactor(factor) {
        var detail := Strip(factor.detail);
        if detail != "" {
          found := found + [detail];
        }
      }
    }
    assert s.risk.factors[..|s.risk.factors|] == s.risk.factors;
    ghost var before := found;
    for i := 0 to |s.analysis.guardrails|
      invariant found == before + DeterioratedDetails(s.analysis.guardrails[..i])
    {
      assert s.analysis.guardrails[..i + 1][..i] == s.analysis.guardrails[..i];
      if Deteriorated(s.analysis.guardrails[i]) {
        found := found + [Detail(s.analysis.guardrails[i])];
      }
    }
    assert s.analysis.guardrails[..|s.analysis.guardrails|] == s.analysis.guardrails;
    issues := Unique(found);
  }

  lemma {:induction false} FactorIssuesConcat(a: seq<RiskFactor>, b: seq<RiskFactor>)
    ensures FactorIssues(a + b) == FactorIssues(a) + FactorIssues(b)
  {
    hide Strip, GuardrailFactor;
    if b == [] {
      assert a + b == a;
    } else {
      var n := |b| - 1;
      assert (a + b)[..|a| + n] == a + b[..n];
      FactorIssuesConcat(a, b[..n]);
    }
  }

  lemma {:induction false} OrdinaryHasNoIssues(factors: seq<RiskFactor>)
    requires RiskAssessmentAgent.Ordinary(factors)
    ensures FactorIssues(factors) == []
  {
    hide Strip;
    if factors != [] {
      OrdinaryHasNoIssues(factors[..|factors| - 1]);
    }
  }

  lemma {:induction false} GuardrailFactorIssues(guardrails: seq<Comparison>)
    ensures FactorIssues(RiskAssessmentAgent.GuardrailFactors(guardrails)) == DeterioratedDetails(guardrails)
  {
    if guardrails != [] {
      hide Strip, Deteriorated, Detail;
      var n := |guardrails| - 1;
      GuardrailFactorIssues(guardrails[..n]);
      DetailsNonEmpty([guardrails[n]]);
      assert [guardrails[n]][..0] == guardrails[..0];
      var before := RiskAssessmentAgent.GuardrailFactors(guardrails[..n]);
      if Deteriorated(guardrails[n]) {
        assert Detail(guardrails[n]) in DeterioratedDetails([guardrails[n]]);
        assert RiskAssessmentAgent.GuardrailFactors(guardrails)[..|before|] == before;
      } else {
        assert RiskAssessmentAgent.GuardrailFactors(guardrails) == before;
      }
    }
  }

  /**
   On an assessed state the three sources of guardrail issues agree: together they are the
   details of the analysis's deteriorated guardrails, each once, in order.
   */
  lemma HarmfulIssuesMeaning(s: AgentState, assessed: AgentState)
    requires s.risk == RiskAssessmentAgent.Assess(assessed) && assessed.analysis == s.analysis
    ensures HarmfulIssues(s) == FirstOccurrences(DeterioratedDetails(s.analysis.guardrails))
    ensures HarmfulIssues(s) == [] <==> forall g :: g in s.analysis.guardrails ==> !Deteriorated(g)
  {
    hide FirstOccurrences, DeterioratedDetails, Deteriorated, RiskAssessmentAgent.Assess, FactorIssues;
    var details := DeterioratedDetails(s.analysis.guardrails);
    DetailsNonEmpty(s.analysis.guardrails);
    FirstOccurrencesMeaning(details);
    NonEmptyHasMember(details);
    NonEmptyHasMember(FirstOccurrences(details));
    AssessedConcerns(assessed);
    if RiskAssessmentAgent.HasContext(assessed) {
      hide RiskAssessmentAgent.HasContext;
      FirstOccurrencesIdempotent(details, details + details);
      assert FirstOccurrences(details) + (details + details) == FirstOccurrences(details) + details + details;
    } else {
      assert [] + [] + details == details;
    }
  }

  lemma AssessedConcerns(assessed: AgentState)
    ensures var risk, details := RiskAssessmentAgent.Assess(assessed), DeterioratedDetails(assessed.analysis.guardrails);
            if RiskAssessmentAgent.HasContext(assessed)
            then risk.guardrailConcerns == FirstOccurrences(details) && FactorIssues(risk.factors) == details
            else risk.guardrailConcerns == [] && FactorIssues(risk.factors) == []
  {
    AssessedIssues(assessed);
    hide FirstOccurrences, DeterioratedDetails, RiskAssessmentAgent.HasContext, RiskAssessmentAgent.Factors,
      RiskAssessmentAgent.Citations, RiskAssessmentAgent.Limitations, RiskAssessmentAgent.ConfidenceOf,
      RiskAssessmentAgent.StatusOf, RiskAssessmentAgent.ScoreOf, RiskAssessmentAgent.CategoryDetails,
      RiskAssessmentAgent.NO_CONTEXT_NOTE;
  }

  lemma NonEmptyHasMember(values: seq<string>)
    ensures values == [] <==> forall v :: v !in values
  {
    if values != [] {
      assert values[0] in values;
    }
  }

  lemma AssessedIssues(assessed: AgentState)
    ensures var factors := RiskAssessmentAgent.Factors(assessed);
            FactorIssues(factors) == DeterioratedDetails(assessed.analysis.guardrails)
            && RiskAssessmentAgent.CategoryDetails(factors, GuardrailRisk) == DeterioratedDetails(assessed.analysis.guardrails)
  {
    RiskAssessmentAgent.GuardrailConcerns(assessed);
    RiskAssessmentAgent.FactorsAreOrdinary(assessed);
    GuardrailFactorIssues(assessed.analysis.guardrails);
    hide FactorIssues, RiskAssessmentAgent.FactorsBefore, RiskAssessmentAgent.FactorsAfter,
      RiskAssessmentAgent.GuardrailFactors, DeterioratedDetails;
    var before, after := RiskAssessmentAgent.FactorsBefore(assessed), RiskAssessmentAgent.FactorsAfter(assessed);
    var middle := RiskAssessmentAgent.GuardrailFactors(assessed.analysis.guardrails);
    OrdinaryHasNoIssues(before);
    OrdinaryHasNoIssues(after);
    FactorIssuesConcat(before + middle, after);
    FactorIssuesConcat(before, middle);
  }

  // ---------------------------------------------------------------- signals

  datatype Direction = PositiveDirection | NegativeDirection | Flat | UnknownDirection

  function SignOf(lift: real): Direction {
    if lift > 0.0 then PositiveDirection else if lift < 0.0 then NegativeDirection else Flat
  }

  /** `_lift_direction` */
  function LiftDirection(s: AgentState): Direction {
    match (RiskAssessmentAgent.RelativeLift(s), RiskAssessmentAgent.AbsoluteLift(s))
    case (Some(lift), _) => SignOf(lift)
    case (None, Some(lift)) => SignOf(lift)
    case (None, None) => UnknownDirection
  }

  /** `_primary_metric_worsened` */
  predicate PrimaryWorsened(a: Analysis) {
    a.control.Some? && a.treatment.Some? && a.treatment.value < a.control.value
  }

  /** `_business_positive` */
  predicate BusinessPositive(i: Impact) {
    i.status in {Estimated, PartialEstimate} &&
    match (i.relativeLift, i.absoluteLift)
    case (Some(lift), _) => lift > 0.0
    case (None, Some(lift)) => lift > 0.0
    case (None, None) => i.annualized.Some? && i.annualized.value.amount.Some? && i.annualized.value.amount.value > 0.0
  }

  /** `_needs_more_data` */
  predicate NeedsData(s: AgentState) {
    || s.analysis.status != AnalysisCompleted
    || s.impact.status in {PartialEstimate, ImpactInsufficient}
    || s.risk.status in {PartialAssessment, RiskInsufficient}
    || s.risk.level == UnknownRisk
    || s.analysis.significance == None
  }

  /** `_insufficient_data` */
  predicate Insufficient(s: AgentState) {
    && s.analysis.status in {NotApplicable, AnalysisInsufficient}
    && s.impact.status in {ImpactNotRequired, ImpactInsufficient}
    && AllCitations(s) == []
  }

  function Note(condition: bool, text: string): seq<string> { if condition then [text] else [] }

  /** `_decision_gaps` */
  function Gaps(s: AgentState): seq<string> {
    FirstOccurrences(
      Note(s.analysis.status == NotApplicable, "Experiment analysis status is not_applicable.")
      + Note(s.analysis.status == AnalysisInsufficient, "Experiment analysis status is insufficient_data.")
      + Note(s.analysis.significance == None, "Statistical significance is missing for the primary metric.")
      + Note(s.impact.status == PartialEstimate, "Business impact is only partially estimated.")
      + Note(s.impact.status == ImpactInsufficient, "Business impact is insufficient for a rollout decision.")
      + Note(s.risk.status == PartialAssessment, "Risk assessment is only partially complete.")
      + Note(s.risk.status == RiskInsufficient, "Risk assessment is insufficient for a rollout decision.")
      + Note(s.risk.level == UnknownRisk, "Overall risk level is unknown.")
      + s.risk.guardrailConcerns + s.risk.statisticalConcerns + s.risk.dataQualityConcerns
      + s.risk.rolloutConcerns + s.risk.userConcerns)
  }

  function ErrorIssues(errors: seq<ErrorRecord>): seq<string> {
    if errors == [] then []
    else
      var last := errors[|errors| - 1];
      ErrorIssues(errors[..|errors| - 1])
      + (if last.code != "" && last.message != "" then [last.code + ": " + last.message] else [])
  }

  // ---------------------------------------------------------------- the decision

  const INSUFFICIENT_ISSUES := [
    "Experiment analysis is insufficient or missing.", "Grounded evidence citations are missing or incomplete."]

  function Limitations(s: AgentState): seq<string> {
    FirstOccurrences(s.analysis.limitations + s.impact.limitations + s.risk.limitations)
  }

  function DecisionWith(s: AgentState, status: DecisionStatus, recommendation: Recommendation, confidence: Confidence,
                   issues: seq<string>, approvalRequired: bool): Decision
  {
    Decision(status, recommendation, confidence, FirstOccurrences(issues), approvalRequired,
             FirstCitations(AllCitations(s)), FirstOccurrences(Limitations(s)))
  }

  // ---------------------------------------------------------------- the validation tool

  function PayloadOf(s: AgentState): EvidencePayload {
    EvidencePayload(
      s.analysis.status == AnalysisCompleted, s.impact.status !in {ImpactNotRequired, ImpactInsufficient},
      s.risk.status !in {RiskNotRequired, RiskInsufficient}, s.analysis.significance.Some?,
      |FirstCitations(AllCitations(s))|)
  }

  function Validated(s: AgentState, tools: ToolAnswers): Option<Validation> { tools.validate(PayloadOf(s)) }

  /** The validation does not object: it found everything, or it failed. */
  predicate ValidationPasses(s: AgentState, tools: ToolAnswers) {
    Validated(s, tools).Some? ==> Validated(s, tools).value.isValid
  }

  /** `validate_required_evidence` (packages/agents/tools/decision.py) */
  function ValidateRequiredEvidence(p: EvidencePayload): Validation {
    var missing :=
      Note(!p.hasAnalysis, "experiment_analysis") + Note(!p.hasImpact, "business_impact")
      + Note(!p.hasRisk, "risk_assessment") + Note(!p.hasSignificance, "statistical_significance")
      + Note(p.citationCount == 0, "citations");
    Validation(missing == [], missing)
  }

  /** The tool that `_register_builtin_tools` registers. */
  ghost predicate RegisteredValidation(tools: ToolAnswers) {
    forall p :: tools.validate(p) == Some(ValidateRequiredEvidence(p))
  }

  // ---------------------------------------------------------------- the branches

  /** The confidence tool's answer, or low when the call failed. */
  function ScoredConfidence(tools: ToolAnswers): Confidence {
    match tools.confidence
    case Some(confidence) => confidence
    case None => Low
  }

  function HoldRecommendation(s: AgentState): Recommendation {
    if LiftDirection(s) == PositiveDirection && BusinessPositive(s.impact) then ContinueExperiment else NeedsMoreData
  }

  /** `_build_decision` on the unstructured path, branch by branch. */
  function Decide(s: AgentState, tools: ToolAnswers): Decision {
    if s.errors != [] then DecisionWith(s, Blocked, NeedsMoreData, Low, ErrorIssues(s.errors), false)
    else if Insufficient(s) then
      DecisionWith(s, DecisionInsufficient, NeedsMoreData, UnknownConfidence, INSUFFICIENT_ISSUES, false)
    else if HarmfulIssues(s) != [] then
      DecisionWith(s, Decided, Rollback, ScoredConfidence(tools), HarmfulIssues(s), true)
    else if LiftDirection(s) == NegativeDirection || PrimaryWorsened(s.analysis) then
      DecisionWith(s, Decided, DoNotRollout, ScoredConfidence(tools), Gaps(s), true)
    else if !ValidationPasses(s, tools) then
      DecisionWith(s, NeedsMoreDataStatus, HoldRecommendation(s), Low,
              FirstOccurrences(Validated(s, tools).value.missing + Gaps(s)), false)
    else if NeedsData(s) then DecisionWith(s, NeedsMoreDataStatus, HoldRecommendation(s), Low, Gaps(s), false)
    else if LiftDirection(s) == PositiveDirection && BusinessPositive(s.impact) && s.risk.level in {LowRisk, MediumRisk} then
      DecisionWith(s, Decided, Rollout, ScoredConfidence(tools), [], true)
    else DecisionWith(s, NeedsMoreDataStatus, NeedsMoreData, Low, Gaps(s), false)
  }

  function ValidationCall(s: AgentState, tools: ToolAnswers): ToolCall {
    ToolCall("validate_required_evidence", Known(DecisionMaking), Validated(s, tools) == None)
  }

  function ConfidenceCall(tools: ToolAnswers): ToolCall {
    ToolCall("score_decision_confidence", Known(DecisionMaking), tools.confidence == None)
  }

  /** The tool calls that the branch taken has made. */
  function CallsOf(s: AgentState, tools: ToolAnswers): seq<ToolCall> {
    if s.errors != [] then []
    else if Decide(s, tools).status == Decided then [ValidationCall(s, tools), ConfidenceCall(tools)]
    else [ValidationCall(s, tools)]
  }

  /** The structured path: no product readiness follows from the analysis alone. */
  function DecideStructured(s: AgentState): Decision {
    var eligible := s.result.Some? && s.result.value.status in {ResultCompleted, ResultInconclusive};
    s.decision.(status := if eligible then NeedsMoreDataStatus else Blocked,
                recommendation := NeedsMoreData, confidence := UnknownConfidence,
                blockingIssues := if eligible then [] else ["Analysis is unavailable or abstained."],
                approvalRequired := s.decision.approvalRequired || s.approval.required,
                limitations := ["No rollout authorization follows from statistical or monetary effect alone."])
  }

  /** `DecisionAgent.run` */
  function Run(s: AgentState, tools: ToolAnswers): Update {
    var decision := if s.request.Some? then DecideStructured(s) else Decide(s, tools);
    NO_UPDATE.(decision := Some(decision),
               toolCalls := if s.request.Some? then [] else CallsOf(s, tools),
               metrics := Some(s.metrics[NodeKey(DecisionMaking) := NodeEntry(false, |decision.citations|)]),
               trace := [TraceEntry(DecisionMaking, StartedEvent), TraceEntry(DecisionMaking, CompletedEvent)])
  }

  /** `_build_decision` on the unstructured path, collecting tool calls as it goes. */
  method BuildDecision(s: AgentState, tools: ToolAnswers) returns (decision: Decision, calls: seq<ToolCall>)
    ensures decision == Decide(s, tools) && calls == CallsOf(s, tools)
  {
    hide FirstOccurrences, FirstCitations, Gaps, HarmfulIssues, Limitations, ErrorIssues, AllCitations,
      INSUFFICIENT_ISSUES;
    calls := [];
    var citations := DecisionCitations(s);
    if s.errors != [] {
      return DecisionWith(s, Blocked, NeedsMoreData, Low, ErrorIssues(s.errors), false), calls;
    }
    var validation := tools.validate(PayloadOf(s));
    calls := calls + [ValidationCall(s, tools)];
    EmptyCitations(s);
    if s.analysis.status in {NotApplicable, AnalysisInsufficient} && s.impact.status in {ImpactNotRequired, ImpactInsufficient}
       && citations == [] {
      return DecisionWith(s, DecisionInsufficient, NeedsMoreData, UnknownConfidence, INSUFFICIENT_ISSUES, false), calls;
    }
    var harmful := HarmfulGuardrailIssues(s);
    if harmful != [] {
      calls := calls + [ConfidenceCall(tools)];
      return DecisionWith(s, Decided, Rollback, ScoredConfidence(tools), harmful, true), calls;
    }
    var positive := LiftDirection(s) == PositiveDirection && BusinessPositive(s.impact);
    if LiftDirection(s) == NegativeDirection || PrimaryWorsened(s.analysis) {
      calls := calls + [ConfidenceCall(tools)];
      return DecisionWith(s, Decided, DoNotRollout, ScoredConfidence(tools), Gaps(s), true), calls;
    }
    if validation.Some? && !validation.value.isValid {
      var issues := Unique(validation.value.missing + Gaps(s));
      return DecisionWith(s, NeedsMoreDataStatus, if positive then ContinueExperiment else NeedsMoreData, Low, issues, false), calls;
    }
    if NeedsData(s) {
      return DecisionWith(s, NeedsMoreDataStatus, if positive then ContinueExperiment else NeedsMoreData, Low, Gaps(s), false), calls;
    }
    if positive && s.risk.level in {LowRisk, MediumRisk} {
      calls := calls + [ConfidenceCall(tools)];
      return DecisionWith(s, Decided, Rollout, ScoredConfidence(tools), [], true), calls;
    }
    return DecisionWith(s, NeedsMoreDataStatus, NeedsMoreData, Low, Gaps(s), false), calls;
  }

  lemma EmptyCitations(s: AgentState)
    ensures FirstCitations(AllCitations(s)) == [] <==> AllCitations(s) == []
  {
    FirstCitationsMeaning(AllCitations(s));
    hide FirstCitations;
    if AllCitations(s) != [] {
      assert AllCitations(s)[0] in AllCitations(s);
    }
    if FirstCitations(AllCitations(s)) != [] {
      assert FirstCitations(AllCitations(s))[0] in FirstCitations(AllCitations(s));
    }
  }
}
