/** The risk-assessment agent (packages/agents/risk_assessment_agent.py). */
module RiskAssessmentAgent {
  import opened Text
  import opened Counting
  import opened AgentStates
  import opened Guardrail

  const DATA_QUALITY_TERMS := [
    "sample ratio mismatch", "tracking", "telemetry", "under-count", "undercount", "lag", "allocation"]
  const ROLLOUT_TERMS := ["hold", "pending", "monitor", "fix", "telemetry", "tracking"]
  const NO_CONTEXT_NOTE :=
    "Insufficient evidence: no resolved experiment, analysis, or retrieval support was available for risk assessment."

  // ---------------------------------------------------------------- scoring

  /** `_SEVERITY_POINTS`; the unstructured path only uses the three named severities. */
  function Points(severity: Severity): int {
    match severity
    case LowSeverity => 1
    case MediumSeverity => 2
    case HighSeverity => 3
    case OtherSeverity(_) => 0
  }

  function ScoreOf(factors: seq<RiskFactor>): int {
    if factors == [] then 0 else ScoreOf(factors[..|factors| - 1]) + Points(factors[|factors| - 1].severity)
  }

  /** `_overall_risk_level` */
  function LevelOf(score: int): RiskLevel {
    if score >= 3 then HighRisk else if score >= 1 then MediumRisk else LowRisk
  }

  // ---------------------------------------------------------------- the factor lists

  function CategoryDetails(factors: seq<RiskFactor>, category: RiskCategory): seq<string> {
    if factors == [] then []
    else
      var last := factors[|factors| - 1];
      CategoryDetails(factors[..|factors| - 1], category) + (if last.category == category then [last.detail] else [])
  }

  lemma {:induction false} CategoryDetailsConcat(a: seq<RiskFactor>, b: seq<RiskFactor>, category: RiskCategory)
    ensures CategoryDetails(a + b, category) == CategoryDetails(a, category) + CategoryDetails(b, category)
  {
    if b == [] {
      assert a + b == a;
    } else {
      var n := |b| - 1;
      assert (a + b)[..|a| + n] == a + b[..n];
      CategoryDetailsConcat(a, b[..n], category);
    }
  }

  /** The lists that `add_factor` fills. */
  class FactorLists {
    var factors: seq<RiskFactor>
    var guardrail: seq<string>
    var dataQuality: seq<string>
    var statistical: seq<string>
    var rollout: seq<string>
    var userOrBusiness: seq<string>

    /** Each concern list holds exactly the details of its category, in the order of the factors. */
    ghost predicate Sorted()
      reads this
    {
      && guardrail == CategoryDetails(factors, GuardrailRisk)
      && dataQuality == CategoryDetails(factors, DataQualityRisk)
      && statistical == CategoryDetails(factors, StatisticalRisk)
      && rollout == CategoryDetails(factors, RolloutRisk)
      && userOrBusiness == CategoryDetails(factors, UserOrBusinessRisk)
    }

    constructor ()
      ensures factors == [] && Sorted()
    {
      factors, guardrail, dataQuality, statistical, rollout, userOrBusiness := [], [], [], [], [], [];
    }

    /** `add_factor` */
    method Add(factor: RiskFactor)
      requires Sorted()
      modifies this
      ensures factors == old(factors) + [factor] && Sorted()
    {
      ghost var before := factors;
      factors := factors + [factor];
      assert factors[..|before|] == before;
      match factor.category {
        case GuardrailRisk => guardrail := guardrail + [factor.detail];
        case DataQualityRisk => dataQuality := dataQuality + [factor.detail];
        case StatisticalRisk => statistical := statistical + [factor.detail];
        case RolloutRisk => rollout := rollout + [factor.detail];
        case UserOrBusinessRisk => userOrBusiness := userOrBusiness + [factor.detail];
        case AnalyzerRisk =>
      }
    }
  }

  // ---------------------------------------------------------------- the factors, one group per check

  /** The fixed detail text of a factor. */
  function Describe(code: RiskCode): string {
    match code
    case AmbiguousRequest => "Multiple experiment hints were present without a resolved experiment id."
    case MissingIdentifier => "Risk assessment did not receive a stable experiment identifier."
    case MissingPrimaryMetric => "The experiment analysis did not identify a primary metric for risk evaluation."
    case MissingValues => "Control/treatment values were incomplete, so lift quality cannot be checked fully."
    case MissingSignificance => "No stored statistical significance signal was available for the primary metric."
    case LowOrUnknownConfidence => "At least one upstream artifact reported low or unknown confidence."
    case NegativeOrUnclearLift(true) => "Observed lift is negative, which increases rollout risk materially."
    case NegativeOrUnclearLift(false) => "Primary metric lift could not be established from the available state."
    case InsufficientRetrieval => "Citations or retrieved chunks were missing, reducing evidence traceability."
    case PartialImpact => "Business impact is only partially estimated, so downside/upside tradeoffs remain fuzzy."
    case InsufficientImpact => "Business impact could not be estimated cleanly from the available evidence."
    case _ => ""
  }

  function When(condition: bool, code: RiskCode, severity: Severity, category: RiskCategory): seq<RiskFactor> {
    if condition then [RiskFactor(code, severity, category, Describe(code))] else []
  }

  function IdentifierFactors(s: AgentState): seq<RiskFactor> {
    var unresolved := !(s.analysis.experimentId != "" || (s.experimentIds != [] && s.experimentIds[0] != ""));
    When(unresolved && |s.hints| > 1, AmbiguousRequest, MediumSeverity, DataQualityRisk)
    + When(unresolved && |s.hints| <= 1, MissingIdentifier, MediumSeverity, DataQualityRisk)
  }

  function StatisticalFactors(s: AgentState): seq<RiskFactor> {
    When(s.analysis.primaryMetric == "", MissingPrimaryMetric, HighSeverity, StatisticalRisk)
    + When(s.analysis.control == None || s.analysis.treatment == None, MissingValues, HighSeverity, StatisticalRisk)
    + When(s.analysis.significance == None, MissingSignificance, MediumSeverity, StatisticalRisk)
    + When(LowConfidence(s.analysis.confidence, s.impact.confidence), LowOrUnknownConfidence, MediumSeverity, StatisticalRisk)
  }

  /** `_is_low_confidence` */
  predicate LowConfidence(analysis: Confidence, business: Confidence) {
    analysis in {Low, UnknownConfidence} || (analysis != High && business in {Low, UnknownConfidence})
  }

  datatype LiftSignal = NegativeLift | PositiveLift | UnclearLift

  /** The first lift known: observed, compared, business; then the absolute ones. */
  function RelativeLift(s: AgentState): Option<real> {
    if s.analysis.observedLift.Some? then s.analysis.observedLift
    else if s.analysis.comparison.Some? && s.analysis.comparison.value.relativeLift.Some?
      then s.analysis.comparison.value.relativeLift
    else s.impact.relativeLift
  }

  function AbsoluteLift(s: AgentState): Option<real> {
    if s.analysis.comparison.Some? then Some(s.analysis.comparison.value.absoluteDelta) else s.impact.absoluteLift
  }

  /** `_lift_signal`: a zero lift counts as positive here. */
  function LiftSignalOf(s: AgentState): LiftSignal {
    match (RelativeLift(s), AbsoluteLift(s))
    case (Some(lift), _) => if lift < 0.0 then NegativeLift else PositiveLift
    case (None, Some(lift)) => if lift < 0.0 then NegativeLift else PositiveLift
    case (None, None) => UnclearLift
  }

  function LiftFactors(s: AgentState): seq<RiskFactor> {
    When(LiftSignalOf(s) == NegativeLift, NegativeOrUnclearLift(true), HighSeverity, UserOrBusinessRisk)
    + When(LiftSignalOf(s) == UnclearLift, NegativeOrUnclearLift(false), HighSeverity, UserOrBusinessRisk)
  }

  function GuardrailFactor(metric: Comparison): RiskFactor {
    RiskFactor(GuardrailDeterioration, MediumSeverity, GuardrailRisk, Detail(metric))
  }

  function GuardrailFactors(guardrails: seq<Comparison>): seq<RiskFactor> {
    if guardrails == [] then []
    else
      var last := guardrails[|guardrails| - 1];
      GuardrailFactors(guardrails[..|guardrails| - 1]) + (if Deteriorated(last) then [GuardrailFactor(last)] else [])
  }

  function EvidenceFactors(s: AgentState, citations: seq<Citation>): seq<RiskFactor> {
    When(citations == [] || s.chunks == [], InsufficientRetrieval, MediumSeverity, DataQualityRisk)
    + When(s.impact.status == PartialEstimate, PartialImpact, MediumSeverity, UserOrBusinessRisk)
    + When(s.impact.status == ImpactInsufficient, InsufficientImpact, MediumSeverity, UserOrBusinessRisk)
  }

  function MentionsQuality(notes: seq<string>): seq<string> {
    if notes == [] then []
    else
      var last := notes[|notes| - 1];
      MentionsQuality(notes[..|notes| - 1]) + (if ContainsAny(Lower(last), DATA_QUALITY_TERMS) then [last] else [])
  }

  function NonEmptyNotes(notes: seq<string>): seq<string> {
    if notes == [] then []
    else NonEmptyNotes(notes[..|notes| - 1]) + (if notes[|notes| - 1] == "" then [] else [notes[|notes| - 1]])
  }

  /** `_data_quality_notes` */
  method DataQualityNotes(s: AgentState, limitations: seq<string>) returns (notes: seq<string>)
    ensures notes == QualityNotes(s, limitations)
  {
    hide Lower, ContainsAny;
    var sources := limitations + NonEmptyNotes(s.metadata.imperfections);
    var mentions: seq<string> := [];
    for i := 0 to |sources|
      invariant mentions == MentionsQuality(sources[..i])
    {
      assert sources[..i + 1][..i] == sources[..i];
      if ContainsAny(Lower(sources[i]), DATA_QUALITY_TERMS) {
        mentions := mentions + [sources[i]];
      }
    }
    assert sources[..|sources|] == sources;
    notes := Unique(mentions);
  }

  function QualityNotes(s: AgentState, limitations: seq<string>): seq<string> {
    FirstOccurrences(MentionsQuality(limitations + NonEmptyNotes(s.metadata.imperfections)))
  }

  function QualityFactors(notes: seq<string>): seq<RiskFactor> {
    if notes == [] then []
    else
      QualityFactors(notes[..|notes| - 1])
      + [RiskFactor(DataQualityConcern, MediumSeverity, DataQualityRisk, notes[|notes| - 1])]
  }

  /** `_rollout_note` */
  function RolloutFactors(s: AgentState): seq<RiskFactor> {
    var note := s.metadata.businessDecision;
    if note != "" && ContainsAny(Lower(note), ROLLOUT_TERMS)
    then [RiskFactor(RolloutConstraint, MediumSeverity, RolloutRisk, note)] else []
  }

  function Citations(s: AgentState): seq<Citation> {
    if s.analysis.citations != [] then s.analysis.citations else s.citations
  }

  function Limitations(s: AgentState): seq<string> {
    FirstOccurrences(s.analysis.limitations + s.impact.limitations)
  }

  /** The factors found before the guardrails are looked at, and those found after. */
  function FactorsBefore(s: AgentState): seq<RiskFactor> {
    IdentifierFactors(s) + StatisticalFactors(s) + LiftFactors(s)
  }

  function FactorsAfter(s: AgentState): seq<RiskFactor> {
    EvidenceFactors(s, Citations(s)) + QualityFactors(QualityNotes(s, Limitations(s))) + RolloutFactors(s)
  }

  function Factors(s: AgentState): seq<RiskFactor> {
    FactorsBefore(s) + GuardrailFactors(s.analysis.guardrails) + FactorsAfter(s)
  }

  // ---------------------------------------------------------------- the assessment

  /** `_has_minimum_context` */
  predicate HasContext(s: AgentState) {
    s.analysis.experimentId != "" || s.analysis.primaryMetric != "" || Citations(s) != [] || s.chunks != []
    || s.experimentIds != [] || s.hints != []
  }

  /** `_risk_status` */
  function StatusOf(s: AgentState): RiskStatus {
    if s.analysis.status == AnalysisInsufficient || s.impact.status in {PartialEstimate, ImpactInsufficient}
    then PartialAssessment else Assessed
  }

  /** `_confidence_level` */
  function ConfidenceOf(s: AgentState, status: RiskStatus, score: int): Confidence {
    if score == 0 && s.analysis.confidence == High && s.impact.confidence == High
       && s.analysis.significance.Some? && Citations(s) != []
    then High
    else if status == PartialAssessment then Low
    else Medium
  }

  /** What `_build_risk_assessment` returns on the unstructured path. */
  function Assess(s: AgentState): Risk {
    if !HasContext(s) then
      Risk(RiskInsufficient, UnknownRisk, None, [], [], [], [], [], [], Limitations(s) + [NO_CONTEXT_NOTE], Citations(s), Low)
    else
      var factors := Factors(s);
      var score := ScoreOf(factors);
      Risk(StatusOf(s), LevelOf(score), Some(score), factors,
           FirstOccurrences(CategoryDetails(factors, GuardrailRisk)),
           FirstOccurrences(CategoryDetails(factors, DataQualityRisk)),
           FirstOccurrences(CategoryDetails(factors, StatisticalRisk)),
           FirstOccurrences(CategoryDetails(factors, RolloutRisk)),
           FirstOccurrences(CategoryDetails(factors, UserOrBusinessRisk)),
           FirstOccurrences(Limitations(s)), Citations(s), ConfidenceOf(s, StatusOf(s), score))
  }

  const GRAVE := {"error", "fatal"}
  const CAUTIONARY := {"warning"}

  function DiagnosticFactors(diagnostics: seq<Diagnostic>): seq<RiskFactor> {
    if diagnostics == [] then []
    else
      var last := diagnostics[|diagnostics| - 1];
      DiagnosticFactors(diagnostics[..|diagnostics| - 1])
      + [RiskFactor(AnalyzerCode(last.code), last.severity, AnalyzerRisk, last.message)]
  }

  function SeverityDetails(factors: seq<RiskFactor>, names: set<string>): seq<string> {
    if factors == [] then []
    else
      var last := factors[|factors| - 1];
      SeverityDetails(factors[..|factors| - 1], names)
      + (if last.severity.OtherSeverity? && last.severity.name in names then [last.detail] else [])
  }

  /** The structured path keeps the analyzer's diagnostics and leaves the level unknown. */
  function AssessStructured(s: AgentState): Risk {
    var factors := DiagnosticFactors(if s.result.Some? then s.result.value.diagnostics else []);
    s.risk.(status := PartialAssessment, level := UnknownRisk, score := None, factors := factors,
            dataQualityConcerns := SeverityDetails(factors, GRAVE),
            statisticalConcerns := SeverityDetails(factors, CAUTIONARY),
            limitations := ["Analyzer diagnostics are preserved; operational risks need separate evidence."],
            confidence := UnknownConfidence)
  }

  /** The scoring tool's result, or `None` when the call failed. */
  function ScoreTool(factors: seq<RiskFactor>, fails: bool): Option<(int, RiskLevel)> {
    if fails then None else Some((ScoreOf(factors), LevelOf(ScoreOf(factors))))
  }

  method AddAll(lists: FactorLists, more: seq<RiskFactor>)
    requires lists.Sorted()
    modifies lists
    ensures lists.factors == old(lists.factors) + more && lists.Sorted()
  {
    for i := 0 to |more|
      invariant lists.factors == old(lists.factors) + more[..i] && lists.Sorted()
    {
      lists.Add(more[i]);
    }
  }

  /** The guardrail loop of `_build_risk_assessment`. */
  method AddGuardrails(lists: FactorLists, guardrails: seq<Comparison>)
    requires lists.Sorted()
    modifies lists
    ensures lists.factors == old(lists.factors) + GuardrailFactors(guardrails) && lists.Sorted()
  {
    hide Deteriorated, GuardrailFactor;
    for i := 0 to |guardrails|
      invariant lists.factors == old(lists.factors) + GuardrailFactors(guardrails[..i]) && lists.Sorted()
    {
      assert guardrails[..i + 1][..i] == guardrails[..i];
      if Deteriorated(guardrails[i]) {
        lists.Add(GuardrailFactor(guardrails[i]));
      }
    }
    assert guardrails[..|guardrails|] == guardrails;
  }

  /** The data-quality loop of `_build_risk_assessment`. */
  method AddQualityNotes(lists: FactorLists, notes: seq<string>)
    requires lists.Sorted()
    modifies lists
    ensures lists.factors == old(lists.factors) + QualityFactors(notes) && lists.Sorted()
  {
    for i := 0 to |notes|
      invariant lists.factors == old(lists.factors) + QualityFactors(notes[..i]) && lists.Sorted()
    {
      assert notes[..i + 1][..i] == notes[..i];
      lists.Add(RiskFactor(DataQualityConcern, MediumSeverity, DataQualityRisk, notes[i]));
    }
    assert notes[..|notes|] == notes;
  }

  /** `_build_risk_assessment` on the unstructured path: a failed scoring call changes nothing. */
  method BuildRiskAssessment(s: AgentState, toolFails: bool) returns (risk: Risk, calls: seq<ToolCall>)
    ensures risk == Assess(s)
    ensures calls == if HasContext(s) then [ToolCall("score_experiment_risk", Known(RiskAssessment), toolFails)] else []
  {
    hide FirstOccurrences, QualityNotes, FactorsBefore, GuardrailFactors, QualityFactors, EvidenceFactors,
      RolloutFactors, CategoryDetails, ScoreOf;
    var citations := Citations(s);
    hide Citations;
    var limitations := Unique(s.analysis.limitations + s.impact.limitations);
    if !HasContext(s) {
      return Risk(RiskInsufficient, UnknownRisk, None, [], [], [], [], [], [], limitations + [NO_CONTEXT_NOTE], citations, Low), [];
    }
    var lists := new FactorLists();
    AddAll(lists, FactorsBefore(s));
    AddGuardrails(lists, s.analysis.guardrails);
    AddAll(lists, EvidenceFactors(s, citations));
    var notes := DataQualityNotes(s, limitations);
    AddQualityNotes(lists, notes);
    AddAll(lists, RolloutFactors(s));
    var factors := lists.factors;
    assert factors == Factors(s);
    calls := [ToolCall("score_experiment_risk", Known(RiskAssessment), toolFails)];
    var output := ScoreTool(factors, toolFails);
    var score := if output.Some? then output.value.0 else ScoreOf(factors);
    var level := if output.Some? then output.value.1 else LevelOf(score);
    var guardrail := Unique(lists.guardrail);
    var dataQuality := Unique(lists.dataQuality);
    var statistical := Unique(lists.statistical);
    var rollout := Unique(lists.rollout);
    var userOrBusiness := Unique(lists.userOrBusiness);
    var finalLimitations := Unique(limitations);
    risk := Risk(StatusOf(s), level, Some(score), factors, guardrail, dataQuality, statistical, rollout, userOrBusiness,
                 finalLimitations, citations, ConfidenceOf(s, StatusOf(s), score));
  }

  /** `RiskAssessmentAgent.run` */
  function Run(s: AgentState, toolFails: bool): Update {
    var structured := s.request.Some?;
    var risk := if structured then AssessStructured(s) else Assess(s);
    NO_UPDATE.(risk := Some(risk),
               toolCalls := if structured || !HasContext(s) then []
                            else [ToolCall("score_experiment_risk", Known(RiskAssessment), toolFails)],
               metrics := Some(s.metrics[NodeKey(RiskAssessment) := NodeEntry(false, |risk.citations|)]),
               trace := [TraceEntry(RiskAssessment, StartedEvent), TraceEntry(RiskAssessment, CompletedEvent)])
  }

  // ---------------------------------------------------------------- what the factors mean

  lemma {:induction false} GuardrailFactorsMeaning(guardrails: seq<Comparison>)
    ensures CategoryDetails(GuardrailFactors(guardrails), GuardrailRisk) == DeterioratedDetails(guardrails)
    ensures forall f :: f in GuardrailFactors(guardrails) ==> f.severity == MediumSeverity && f.category == GuardrailRisk
  {
    if guardrails != [] {
      hide Deteriorated, Detail;
      var n := |guardrails| - 1;
      GuardrailFactorsMeaning(guardrails[..n]);
      if Deteriorated(guardrails[n]) {
        var before := GuardrailFactors(guardrails[..n]);
        assert GuardrailFactors(guardrails)[..|before|] == before;
      } else {
        assert GuardrailFactors(guardrails) == GuardrailFactors(guardrails[..n]);
      }
    }
  }

  /** Severities are medium or high, and only the guardrail group is in the guardrail category. */
  ghost predicate Ordinary(factors: seq<RiskFactor>) {
    forall f :: f in factors ==>
      f.severity in {MediumSeverity, HighSeverity} && f.category != GuardrailRisk && f.code != GuardrailDeterioration
  }

  lemma {:induction false} QualityFactorsMeaning(notes: seq<string>)
    ensures Ordinary(QualityFactors(notes))
  {
    if notes != [] {
      QualityFactorsMeaning(notes[..|notes| - 1]);
    }
  }

  lemma OrdinaryConcat(a: seq<RiskFactor>, b: seq<RiskFactor>)
    requires Ordinary(a) && Ordinary(b)
    ensures Ordinary(a + b)
  {
  }

  lemma EarlyGroupsAreOrdinary(s: AgentState)
    ensures Ordinary(IdentifierFactors(s)) && Ordinary(LiftFactors(s))
  {
    hide LiftSignalOf, Describe;
  }

  lemma StatisticalGroupIsOrdinary(s: AgentState)
    ensures Ordinary(StatisticalFactors(s))
  {
    hide LowConfidence, Describe;
    var primary := When(s.analysis.primaryMetric == "", MissingPrimaryMetric, HighSeverity, StatisticalRisk);
    var values := When(s.analysis.control == None || s.analysis.treatment == None, MissingValues, HighSeverity, StatisticalRisk);
    var significance := When(s.analysis.significance == None, MissingSignificance, MediumSeverity, StatisticalRisk);
    var confidence := When(LowConfidence(s.analysis.confidence, s.impact.confidence), LowOrUnknownConfidence, MediumSeverity,
                           StatisticalRisk);
    assert Ordinary(primary) && Ordinary(values) && Ordinary(significance) && Ordinary(confidence);
    hide When, Ordinary;
    OrdinaryConcat(primary, values);
    OrdinaryConcat(primary + values, significance);
    OrdinaryConcat(primary + values + significance, confidence);
  }

  lemma LateGroupsAreOrdinary(s: AgentState, citations: seq<Citation>, notes: seq<string>)
    ensures Ordinary(EvidenceFactors(s, citations)) && Ordinary(QualityFactors(notes)) && Ordinary(RolloutFactors(s))
  {
    hide ContainsAny, Lower, QualityFactors, Describe;
    QualityFactorsMeaning(notes);
  }

  lemma FactorsAreOrdinary(s: AgentState)
    ensures Ordinary(FactorsBefore(s)) && Ordinary(FactorsAfter(s))
  {
    var notes := QualityNotes(s, Limitations(s));
    EarlyGroupsAreOrdinary(s);
    StatisticalGroupIsOrdinary(s);
    LateGroupsAreOrdinary(s, Citations(s), notes);
    hide Ordinary, IdentifierFactors, StatisticalFactors, LiftFactors, EvidenceFactors, QualityFactors,
      RolloutFactors, QualityNotes, Limitations, Citations;
    OrdinaryConcat(IdentifierFactors(s), StatisticalFactors(s));
    OrdinaryConcat(IdentifierFactors(s) + StatisticalFactors(s), LiftFactors(s));
    OrdinaryConcat(EvidenceFactors(s, Citations(s)), QualityFactors(notes));
    OrdinaryConcat(EvidenceFactors(s, Citations(s)) + QualityFactors(notes), RolloutFactors(s));
  }

  lemma {:induction false} OrdinaryHasNoGuardrail(factors: seq<RiskFactor>)
    requires forall f :: f in factors ==> f.category != GuardrailRisk
    ensures CategoryDetails(factors, GuardrailRisk) == []
  {
    if factors != [] {
      OrdinaryHasNoGuardrail(factors[..|factors| - 1]);
    }
  }

  /** The guardrail concerns are the details of the deteriorated guardrails, each once. */
  lemma GuardrailConcerns(s: AgentState)
    ensures CategoryDetails(Factors(s), GuardrailRisk) == DeterioratedDetails(s.analysis.guardrails)
  {
    FactorsAreOrdinary(s);
    GuardrailFactorsMeaning(s.analysis.guardrails);
    hide FactorsBefore, FactorsAfter, GuardrailFactors, CategoryDetails, DeterioratedDetails;
    var before, middle, after := FactorsBefore(s), GuardrailFactors(s.analysis.guardrails), FactorsAfter(s);
    OrdinaryHasNoGuardrail(before);
    OrdinaryHasNoGuardrail(after);
    CategoryDetailsConcat(before + middle, after, GuardrailRisk);
    CategoryDetailsConcat(before, middle, GuardrailRisk);
  }

  lemma {:induction false} ScoreIsAtLeastTwoEach(factors: seq<RiskFactor>)
    requires forall f :: f in factors ==> f.severity in {MediumSeverity, HighSeverity}
    ensures ScoreOf(factors) >= 2 * |factors|
    ensures ScoreOf(factors) <= 2 ==> |factors| <= 1 && forall f :: f in factors ==> f.severity == MediumSeverity
  {
    if factors != [] {
      var n := |factors| - 1;
      ScoreIsAtLeastTwoEach(factors[..n]);
      assert factors[n] in factors;
      assert factors == factors[..n] + [factors[n]];
    }
  }

  /** The level is not high exactly when at most one factor was found and it is a medium one. */
  lemma ManageableRisk(s: AgentState)
    ensures LevelOf(ScoreOf(Factors(s))) != HighRisk
       <==> |Factors(s)| <= 1 && forall f :: f in Factors(s) ==> f.severity == MediumSeverity
  {
    FactorsAreOrdinary(s);
    GuardrailFactorsMeaning(s.analysis.guardrails);
    hide FactorsBefore, FactorsAfter, GuardrailFactors;
    var factors := Factors(s);
    assert forall f :: f in factors ==> f.severity in {MediumSeverity, HighSeverity};
    hide Factors;
    ScoreIsAtLeastTwoEach(factors);
    if |factors| == 1 {
      assert factors[0] in factors;
      assert ScoreOf(factors[..0]) == 0;
    }
  }

  // ---------------------------------------------------------------- what an assessment says

  lemma SeveritiesOfFactors(s: AgentState)
    ensures forall f :: f in Factors(s) ==> f.severity in {MediumSeverity, HighSeverity}
  {
    FactorsAreOrdinary(s);
    GuardrailFactorsMeaning(s.analysis.guardrails);
    hide FactorsBefore, FactorsAfter, GuardrailFactors;
  }

  predicate IsMedium(f: RiskFactor) { f.severity == MediumSeverity }
  predicate IsHigh(f: RiskFactor) { f.severity == HighSeverity }

  lemma {:induction false} ScoreCounts(factors: seq<RiskFactor>)
    requires forall f :: f in factors ==> f.severity in {MediumSeverity, HighSeverity}
    ensures ScoreOf(factors) == 2 * Count(IsMedium, factors) + 3 * Count(IsHigh, factors)
    ensures Count(IsMedium, factors) + Count(IsHigh, factors) == |factors|
  {
    if factors != [] {
      var n := |factors| - 1;
      ScoreCounts(factors[..n]);
      assert factors[n] in factors;
    }
  }

  /** The level that the factors amount to: none is low, a single medium one is medium, and everything else is high. */
  function LevelFor(factors: seq<RiskFactor>): RiskLevel {
    if factors == [] then LowRisk
    else if |factors| == 1 && factors[0].severity == MediumSeverity then MediumRisk
    else HighRisk
  }

  /**
   With some context the level is low if and only if no factor was found, medium if and only if exactly one was found and
   it is a medium one, and high otherwise; each medium factor scores 2 and each high one 3. Without context it is unknown.
   */
  lemma LevelExactly(s: AgentState)
    ensures var risk := Assess(s);
            if HasContext(s)
            then
              && risk.level == LevelFor(risk.factors) && risk.factors == Factors(s)
              && risk.score == Some(2 * Count(IsMedium, risk.factors) + 3 * Count(IsHigh, risk.factors))
              && Count(IsMedium, risk.factors) + Count(IsHigh, risk.factors) == |risk.factors|
            else risk.level == UnknownRisk && risk.score == None && risk.factors == [] && risk.status == RiskInsufficient
  {
    hide *;
    SeveritiesOfFactors(s);
    ScoreCounts(Factors(s));
    LevelOfFactors(Factors(s));
    AssessedParts(s);
  }

  lemma AssessedParts(s: AgentState)
    ensures var risk := Assess(s);
            if HasContext(s)
            then risk.factors == Factors(s) && risk.level == LevelOf(ScoreOf(Factors(s))) && risk.score == Some(ScoreOf(Factors(s)))
            else risk.level == UnknownRisk && risk.score == None && risk.factors == [] && risk.status == RiskInsufficient
  {
    hide Factors, ScoreOf, FirstOccurrences, CategoryDetails, Citations, Limitations, HasContext, StatusOf, ConfidenceOf,
      NO_CONTEXT_NOTE, LevelOf;
  }

  lemma LevelOfFactors(factors: seq<RiskFactor>)
    requires forall f :: f in factors ==> f.severity in {MediumSeverity, HighSeverity}
    ensures LevelOf(ScoreOf(factors)) == LevelFor(factors)
  {
    ScoreIsAtLeastTwoEach(factors);
    if |factors| == 1 {
      assert factors[0] in factors;
      assert ScoreOf(factors[..0]) == 0;
    }
  }

  lemma {:induction false} CategoryDetailsMeaning(factors: seq<RiskFactor>, category: RiskCategory, detail: string)
    ensures detail in CategoryDetails(factors, category) <==> exists f :: f in factors && f.category == category && f.detail == detail
  {
    if factors != [] {
      var n := |factors| - 1;
      CategoryDetailsMeaning(factors[..n], category, detail);
      assert factors == factors[..n] + [factors[n]];
    }
  }

  /** A list holds the non-empty details of the factors of one category, each once. */
  ghost predicate Lists(concerns: seq<string>, factors: seq<RiskFactor>, category: RiskCategory) {
    && Distinct(concerns)
    && forall detail :: detail in concerns <==>
         detail != "" && exists f :: f in factors && f.category == category && f.detail == detail
  }

  lemma ListsDetails(factors: seq<RiskFactor>, category: RiskCategory)
    ensures Lists(FirstOccurrences(CategoryDetails(factors, category)), factors, category)
  {
    FirstOccurrencesMeaning(CategoryDetails(factors, category));
    hide CategoryDetails, FirstOccurrences;
    forall detail
      ensures detail in CategoryDetails(factors, category) <==> exists f :: f in factors && f.category == category && f.detail == detail
    {
      CategoryDetailsMeaning(factors, category, detail);
    }
  }

  /** Each of the five concern lists is about its own category. */
  lemma ConcernLists(s: AgentState)
    ensures var risk := Assess(s);
            && Lists(risk.guardrailConcerns, risk.factors, GuardrailRisk)
            && Lists(risk.dataQualityConcerns, risk.factors, DataQualityRisk)
            && Lists(risk.statisticalConcerns, risk.factors, StatisticalRisk)
            && Lists(risk.rolloutConcerns, risk.factors, RolloutRisk)
            && Lists(risk.userConcerns, risk.factors, UserOrBusinessRisk)
  {
    var factors := Factors(s);
    ListsDetails(factors, GuardrailRisk);
    ListsDetails(factors, DataQualityRisk);
    ListsDetails(factors, StatisticalRisk);
    ListsDetails(factors, RolloutRisk);
    ListsDetails(factors, UserOrBusinessRisk);
    hide Factors, ScoreOf, FirstOccurrences, CategoryDetails, Citations, Limitations, HasContext, StatusOf, ConfidenceOf,
      NO_CONTEXT_NOTE;
  }

  /** The finding that a factor of this code stands for. */
  predicate Applies(code: RiskCode, s: AgentState) {
    var unresolved := s.analysis.experimentId == "" && (s.experimentIds == [] || s.experimentIds[0] == "");
    match code
    case AmbiguousRequest => unresolved && |s.hints| >= 2
    case MissingIdentifier => unresolved && |s.hints| < 2
    case MissingPrimaryMetric => s.analysis.primaryMetric == ""
    case MissingValues => s.analysis.control == None || s.analysis.treatment == None
    case MissingSignificance => s.analysis.significance == None
    case LowOrUnknownConfidence =>
      s.analysis.confidence in {Low, UnknownConfidence} || (s.analysis.confidence == Medium && s.impact.confidence in {Low, UnknownConfidence})
    case NegativeOrUnclearLift(negative) => LiftSignalOf(s) == if negative then NegativeLift else UnclearLift
    case GuardrailDeterioration => exists i :: 0 <= i < |s.analysis.guardrails| && Deteriorated(s.analysis.guardrails[i])
    case InsufficientRetrieval => (s.analysis.citations == [] && s.citations == []) || s.chunks == []
    case PartialImpact => s.impact.status == PartialEstimate
    case InsufficientImpact => s.impact.status == ImpactInsufficient
    case DataQualityConcern => QualityNotes(s, Limitations(s)) != []
    case RolloutConstraint => s.metadata.businessDecision != "" && ContainsAny(Lower(s.metadata.businessDecision), ROLLOUT_TERMS)
    case AnalyzerCode(_) => false
  }

  function SeverityFor(code: RiskCode): Severity {
    if code in {MissingPrimaryMetric, MissingValues, NegativeOrUnclearLift(true), NegativeOrUnclearLift(false)} then HighSeverity
    else MediumSeverity
  }

  function CategoryFor(code: RiskCode): RiskCategory {
    if code in {AmbiguousRequest, MissingIdentifier, InsufficientRetrieval, DataQualityConcern} then DataQualityRisk
    else if code in {MissingPrimaryMetric, MissingValues, MissingSignificance, LowOrUnknownConfidence} then StatisticalRisk
    else if code == GuardrailDeterioration then GuardrailRisk
    else if code == RolloutConstraint then RolloutRisk
    else UserOrBusinessRisk
  }

  ghost predicate Has(factors: seq<RiskFactor>, code: RiskCode) { exists f :: f in factors && f.code == code }

  /** The factor's finding applies, and it has the severity and category of its kind. */
  ghost predicate Sound(f: RiskFactor, s: AgentState) {
    Applies(f.code, s) && f.severity == SeverityFor(f.code) && f.category == CategoryFor(f.code)
  }

  ghost predicate AllSound(factors: seq<RiskFactor>, s: AgentState) { forall f :: f in factors ==> Sound(f, s) }

  lemma WhenSays(condition: bool, code: RiskCode, severity: Severity, category: RiskCategory, s: AgentState)
    requires (condition <==> Applies(code, s)) && severity == SeverityFor(code) && category == CategoryFor(code)
    ensures AllSound(When(condition, code, severity, category), s)
    ensures Applies(code, s) ==> Has(When(condition, code, severity, category), code)
  {
    hide Applies, SeverityFor, CategoryFor, Describe;
    if condition {
      assert RiskFactor(code, severity, category, Describe(code)) in When(condition, code, severity, category);
    }
  }

  lemma TwoLists(a: seq<RiskFactor>, b: seq<RiskFactor>, s: AgentState)
    ensures AllSound(a, s) && AllSound(b, s) ==> AllSound(a + b, s)
    ensures forall code :: Has(a, code) || Has(b, code) ==> Has(a + b, code)
  {
    hide Sound;
    forall code | Has(a, code) || Has(b, code) ensures Has(a + b, code) {
      var f :| (f in a || f in b) && f.code == code;
      assert f in a + b;
    }
  }

  lemma IdentifierSays(s: AgentState)
    ensures AllSound(IdentifierFactors(s), s)
    ensures Applies(AmbiguousRequest, s) ==> Has(IdentifierFactors(s), AmbiguousRequest)
    ensures Applies(MissingIdentifier, s) ==> Has(IdentifierFactors(s), MissingIdentifier)
  {
    var unresolved := !(s.analysis.experimentId != "" || (s.experimentIds != [] && s.experimentIds[0] != ""));
    WhenSays(unresolved && |s.hints| > 1, AmbiguousRequest, MediumSeverity, DataQualityRisk, s);
    WhenSays(unresolved && |s.hints| <= 1, MissingIdentifier, MediumSeverity, DataQualityRisk, s);
    hide Applies, When, AllSound, Has;
    TwoLists(When(unresolved && |s.hints| > 1, AmbiguousRequest, MediumSeverity, DataQualityRisk),
             When(unresolved && |s.hints| <= 1, MissingIdentifier, MediumSeverity, DataQualityRisk), s);
  }

  lemma PrimarySays(s: AgentState)
    ensures var group := When(s.analysis.primaryMetric == "", MissingPrimaryMetric, HighSeverity, StatisticalRisk)
                         + When(s.analysis.control == None || s.analysis.treatment == None, MissingValues, HighSeverity, StatisticalRisk);
            && AllSound(group, s) && (Applies(MissingPrimaryMetric, s) ==> Has(group, MissingPrimaryMetric))
            && (Applies(MissingValues, s) ==> Has(group, MissingValues))
  {
    WhenSays(s.analysis.primaryMetric == "", MissingPrimaryMetric, HighSeverity, StatisticalRisk, s);
    WhenSays(s.analysis.control == None || s.analysis.treatment == None, MissingValues, HighSeverity, StatisticalRisk, s);
    hide Applies, When, AllSound, Has;
    TwoLists(When(s.analysis.primaryMetric == "", MissingPrimaryMetric, HighSeverity, StatisticalRisk),
             When(s.analysis.control == None || s.analysis.treatment == None, MissingValues, HighSeverity, StatisticalRisk), s);
  }

  lemma SupportSays(s: AgentState)
    ensures var low := LowConfidence(s.analysis.confidence, s.impact.confidence);
            var significance := When(s.analysis.significance == None, MissingSignificance, MediumSeverity, StatisticalRisk);
            var confidence := When(low, LowOrUnknownConfidence, MediumSeverity, StatisticalRisk);
            && AllSound(significance, s) && AllSound(confidence, s)
            && (Applies(MissingSignificance, s) ==> Has(significance, MissingSignificance))
            && (Applies(LowOrUnknownConfidence, s) ==> Has(confidence, LowOrUnknownConfidence))
  {
    var low := LowConfidence(s.analysis.confidence, s.impact.confidence);
    WhenSays(s.analysis.significance == None, MissingSignificance, MediumSeverity, StatisticalRisk, s);
    WhenSays(low, LowOrUnknownConfidence, MediumSeverity, StatisticalRisk, s);
  }

  lemma StatisticalSays(s: AgentState)
    ensures AllSound(StatisticalFactors(s), s)
    ensures Applies(MissingPrimaryMetric, s) ==> Has(StatisticalFactors(s), MissingPrimaryMetric)
    ensures Applies(MissingValues, s) ==> Has(StatisticalFactors(s), MissingValues)
    ensures Applies(MissingSignificance, s) ==> Has(StatisticalFactors(s), MissingSignificance)
    ensures Applies(LowOrUnknownConfidence, s) ==> Has(StatisticalFactors(s), LowOrUnknownConfidence)
  {
    hide Applies, When, AllSound, Has, LowConfidence;
    PrimarySays(s);
    SupportSays(s);
    var group := When(s.analysis.primaryMetric == "", MissingPrimaryMetric, HighSeverity, StatisticalRisk)
                 + When(s.analysis.control == None || s.analysis.treatment == None, MissingValues, HighSeverity, StatisticalRisk);
    var significance := When(s.analysis.significance == None, MissingSignificance, MediumSeverity, StatisticalRisk);
    var confidence := When(LowConfidence(s.analysis.confidence, s.impact.confidence), LowOrUnknownConfidence, MediumSeverity, StatisticalRisk);
    TwoLists(group, significance, s);
    TwoLists(group + significance, confidence, s);
  }

  lemma LiftSays(s: AgentState)
    ensures AllSound(LiftFactors(s), s)
    ensures Applies(NegativeOrUnclearLift(true), s) ==> Has(LiftFactors(s), NegativeOrUnclearLift(true))
    ensures Applies(NegativeOrUnclearLift(false), s) ==> Has(LiftFactors(s), NegativeOrUnclearLift(false))
  {
    hide LiftSignalOf;
    WhenSays(LiftSignalOf(s) == NegativeLift, NegativeOrUnclearLift(true), HighSeverity, UserOrBusinessRisk, s);
    WhenSays(LiftSignalOf(s) == UnclearLift, NegativeOrUnclearLift(false), HighSeverity, UserOrBusinessRisk, s);
    hide Applies, When, AllSound, Has;
    TwoLists(When(LiftSignalOf(s) == NegativeLift, NegativeOrUnclearLift(true), HighSeverity, UserOrBusinessRisk),
             When(LiftSignalOf(s) == UnclearLift, NegativeOrUnclearLift(false), HighSeverity, UserOrBusinessRisk), s);
  }

  lemma RetrievalSays(s: AgentState)
    ensures var group := When(Citations(s) == [] || s.chunks == [], InsufficientRetrieval, MediumSeverity, DataQualityRisk);
            AllSound(group, s) && (Applies(InsufficientRetrieval, s) ==> Has(group, InsufficientRetrieval))
  {
    WhenSays(Citations(s) == [] || s.chunks == [], InsufficientRetrieval, MediumSeverity, DataQualityRisk, s);
  }

  lemma ImpactSays(s: AgentState)
    ensures var partial := When(s.impact.status == PartialEstimate, PartialImpact, MediumSeverity, UserOrBusinessRisk);
            var insufficient := When(s.impact.status == ImpactInsufficient, InsufficientImpact, MediumSeverity, UserOrBusinessRisk);
            && AllSound(partial, s) && AllSound(insufficient, s)
            && (Applies(PartialImpact, s) ==> Has(partial, PartialImpact))
            && (Applies(InsufficientImpact, s) ==> Has(insufficient, InsufficientImpact))
  {
    WhenSays(s.impact.status == PartialEstimate, PartialImpact, MediumSeverity, UserOrBusinessRisk, s);
    WhenSays(s.impact.status == ImpactInsufficient, InsufficientImpact, MediumSeverity, UserOrBusinessRisk, s);
  }

  lemma EvidenceSays(s: AgentState)
    ensures AllSound(EvidenceFactors(s, Citations(s)), s)
    ensures Applies(InsufficientRetrieval, s) ==> Has(EvidenceFactors(s, Citations(s)), InsufficientRetrieval)
    ensures Applies(PartialImpact, s) ==> Has(EvidenceFactors(s, Citations(s)), PartialImpact)
    ensures Applies(InsufficientImpact, s) ==> Has(EvidenceFactors(s, Citations(s)), InsufficientImpact)
  {
    hide Applies, When, AllSound, Has, Citations;
    RetrievalSays(s);
    ImpactSays(s);
    var retrieval := When(Citations(s) == [] || s.chunks == [], InsufficientRetrieval, MediumSeverity, DataQualityRisk);
    var partial := When(s.impact.status == PartialEstimate, PartialImpact, MediumSeverity, UserOrBusinessRisk);
    TwoLists(retrieval, partial, s);
    TwoLists(retrieval + partial, When(s.impact.status == ImpactInsufficient, InsufficientImpact, MediumSeverity, UserOrBusinessRisk), s);
  }

  lemma {:induction false} QualityFactorsSay(notes: seq<string>)
    ensures forall f :: f in QualityFactors(notes) ==>
              f.code == DataQualityConcern && f.severity == MediumSeverity && f.category == DataQualityRisk
    ensures |QualityFactors(notes)| == |notes|
  {
    if notes != [] {
      QualityFactorsSay(notes[..|notes| - 1]);
    }
  }

  lemma QualitySays(s: AgentState)
    ensures var factors := QualityFactors(QualityNotes(s, Limitations(s)));
            AllSound(factors, s) && (Applies(DataQualityConcern, s) ==> Has(factors, DataQualityConcern))
  {
    var notes := QualityNotes(s, Limitations(s));
    assert Applies(DataQualityConcern, s) <==> notes != [];
    QualityFactorsSay(notes);
    hide QualityNotes, Limitations, Applies, QualityFactors;
    if notes != [] {
      assert QualityFactors(notes)[0] in QualityFactors(notes);
    }
  }

  lemma RolloutSays(s: AgentState)
    ensures AllSound(RolloutFactors(s), s) && (Applies(RolloutConstraint, s) ==> Has(RolloutFactors(s), RolloutConstraint))
  {
    assert Applies(RolloutConstraint, s)
       <==> s.metadata.businessDecision != "" && ContainsAny(Lower(s.metadata.businessDecision), ROLLOUT_TERMS);
    hide ContainsAny, Lower, ROLLOUT_TERMS, Applies;
    if RolloutFactors(s) != [] {
      assert RolloutFactors(s)[0] in RolloutFactors(s);
    }
  }

  lemma {:induction false} GuardrailFactorsSay(guardrails: seq<Comparison>)
    ensures forall f :: f in GuardrailFactors(guardrails) ==>
              f.code == GuardrailDeterioration && f.severity == MediumSeverity && f.category == GuardrailRisk
    ensures GuardrailFactors(guardrails) != [] <==> exists i :: 0 <= i < |guardrails| && Deteriorated(guardrails[i])
  {
    hide Deteriorated, Detail;
    if guardrails != [] {
      GuardrailFactorsSay(guardrails[..|guardrails| - 1]);
    }
  }

  lemma GuardrailSays(s: AgentState)
    ensures var factors := GuardrailFactors(s.analysis.guardrails);
            AllSound(factors, s) && (Applies(GuardrailDeterioration, s) ==> Has(factors, GuardrailDeterioration))
  {
    GuardrailFactorsSay(s.analysis.guardrails);
    assert Applies(GuardrailDeterioration, s)
       <==> exists i :: 0 <= i < |s.analysis.guardrails| && Deteriorated(s.analysis.guardrails[i]);
    hide GuardrailFactors, Deteriorated, Applies;
    var factors := GuardrailFactors(s.analysis.guardrails);
    if factors != [] {
      assert factors[0] in factors;
    }
  }

  lemma SevenGroups(s: AgentState)
    ensures Factors(s) == IdentifierFactors(s) + StatisticalFactors(s) + LiftFactors(s) + GuardrailFactors(s.analysis.guardrails)
              + (EvidenceFactors(s, Citations(s)) + QualityFactors(QualityNotes(s, Limitations(s))) + RolloutFactors(s))
  {
    hide IdentifierFactors, StatisticalFactors, LiftFactors, GuardrailFactors, EvidenceFactors, QualityFactors, RolloutFactors,
      QualityNotes, Limitations, Citations;
  }

  /** In any state each of the fourteen findings is a factor exactly if it applies, with its own severity and category. */
  lemma FactorsTell(s: AgentState)
    ensures forall f :: f in Factors(s) ==> f.severity == SeverityFor(f.code) && f.category == CategoryFor(f.code)
    ensures forall code :: Has(Factors(s), code) <==> Applies(code, s)
  {
    FactorsAreSound(s);
    FactorsAreComplete(s);
    assert forall f :: f in Factors(s) ==> Sound(f, s);
    hide Factors, Applies, SeverityFor, CategoryFor;
  }

  lemma FactorsAreSound(s: AgentState)
    ensures AllSound(Factors(s), s)
  {
    hide *;
    SevenGroups(s);
    IdentifierSays(s);
    StatisticalSays(s);
    LiftSays(s);
    GuardrailSays(s);
    EvidenceSays(s);
    QualitySays(s);
    RolloutSays(s);
    JoinedSay(s);
  }

  /** What holds of the groups holds of their concatenation. */
  lemma JoinedSay(s: AgentState)
    ensures AllSound(IdentifierFactors(s), s) && AllSound(StatisticalFactors(s), s) && AllSound(LiftFactors(s), s)
            && AllSound(GuardrailFactors(s.analysis.guardrails), s) && AllSound(EvidenceFactors(s, Citations(s)), s)
            && AllSound(QualityFactors(QualityNotes(s, Limitations(s))), s) && AllSound(RolloutFactors(s), s)
        ==> AllSound(Factors(s), s)
    ensures forall code ::
              Has(IdentifierFactors(s), code) || Has(StatisticalFactors(s), code) || Has(LiftFactors(s), code)
              || Has(GuardrailFactors(s.analysis.guardrails), code) || Has(EvidenceFactors(s, Citations(s)), code)
              || Has(QualityFactors(QualityNotes(s, Limitations(s))), code) || Has(RolloutFactors(s), code)
              ==> Has(Factors(s), code)
  {
    hide *;
    SevenGroups(s);
    var early, evidence := IdentifierFactors(s) + StatisticalFactors(s), EvidenceFactors(s, Citations(s));
    var quality, guards := QualityFactors(QualityNotes(s, Limitations(s))), GuardrailFactors(s.analysis.guardrails);
    TwoLists(IdentifierFactors(s), StatisticalFactors(s), s);
    TwoLists(early, LiftFactors(s), s);
    TwoLists(early + LiftFactors(s), guards, s);
    TwoLists(evidence, quality, s);
    TwoLists(evidence + quality, RolloutFactors(s), s);
    TwoLists(early + LiftFactors(s) + guards, evidence + quality + RolloutFactors(s), s);
  }

  lemma FactorsAreComplete(s: AgentState)
    ensures forall code :: Applies(code, s) ==> Has(Factors(s), code)
  {
    hide *;
    JoinedSay(s);
    IdentifierSays(s);
    StatisticalSays(s);
    LiftSays(s);
    GuardrailSays(s);
    EvidenceSays(s);
    QualitySays(s);
    RolloutSays(s);
    forall code | Applies(code, s) ensures Has(Factors(s), code) {
      match code
      case AmbiguousRequest => case MissingIdentifier => case MissingPrimaryMetric => case MissingValues =>
      case MissingSignificance => case LowOrUnknownConfidence => case GuardrailDeterioration => case InsufficientRetrieval =>
      case PartialImpact => case InsufficientImpact => case DataQualityConcern => case RolloutConstraint =>
      case NegativeOrUnclearLift(negative) =>
        if negative {
          assert code == NegativeOrUnclearLift(true);
        } else {
          assert code == NegativeOrUnclearLift(false);
        }
      case AnalyzerCode(name) => AnalyzerNeverApplies(name, s);
    }
  }

  lemma AnalyzerNeverApplies(name: string, s: AgentState)
    ensures !Applies(AnalyzerCode(name), s)
  {
  }

  /** The assessment is partial exactly if the analysis is insufficient or the impact partial or insufficient. */
  lemma StatusExactly(s: AgentState)
    ensures Assess(s).status == PartialAssessment <==>
              HasContext(s) && (s.analysis.status == AnalysisInsufficient || s.impact.status in {PartialEstimate, ImpactInsufficient})
    ensures Assess(s).status == RiskInsufficient <==> !HasContext(s)
    ensures Assess(s).status in {Assessed, PartialAssessment, RiskInsufficient}
  {
    hide Factors, ScoreOf, FirstOccurrences, CategoryDetails, Citations, Limitations, HasContext, ConfidenceOf, NO_CONTEXT_NOTE;
  }

  /** High confidence takes no factor, two confident reports, significance and a citation; a partial assessment has little. */
  lemma ConfidenceExactly(s: AgentState)
    ensures Assess(s).confidence == High <==>
              && HasContext(s) && Factors(s) == [] && s.analysis.confidence == High && s.impact.confidence == High
              && s.analysis.significance.Some? && (s.analysis.citations != [] || s.citations != [])
    ensures Assess(s).confidence == Low <==> Assess(s).confidence != High && Assess(s).status in {PartialAssessment, RiskInsufficient}
    ensures Assess(s).confidence in {High, Medium, Low}
  {
    SeveritiesOfFactors(s);
    ScoreIsAtLeastTwoEach(Factors(s));
    assert Factors(s) == [] ==> ScoreOf(Factors(s)) == 0;
    hide Factors, ScoreOf, FirstOccurrences, CategoryDetails, Limitations, HasContext, NO_CONTEXT_NOTE, StatusOf;
  }

  // ---------------------------------------------------------------- the structured path

  lemma {:induction false} OneFactorPerDiagnostic(diagnostics: seq<Diagnostic>)
    ensures |DiagnosticFactors(diagnostics)| == |diagnostics|
    ensures forall i :: 0 <= i < |diagnostics| ==>
              DiagnosticFactors(diagnostics)[i]
              == RiskFactor(AnalyzerCode(diagnostics[i].code), diagnostics[i].severity, AnalyzerRisk, diagnostics[i].message)
  {
    if diagnostics != [] {
      OneFactorPerDiagnostic(diagnostics[..|diagnostics| - 1]);
    }
  }

  ghost predicate OfSeverity(d: Diagnostic, names: set<string>) { d.severity.OtherSeverity? && d.severity.name in names }

  lemma {:induction false} SeverityDetailsMeaning(diagnostics: seq<Diagnostic>, names: set<string>, text: string)
    ensures text in SeverityDetails(DiagnosticFactors(diagnostics), names) <==>
            exists d :: d in diagnostics && OfSeverity(d, names) && d.message == text
  {
    if diagnostics != [] {
      var n := |diagnostics| - 1;
      SeverityDetailsMeaning(diagnostics[..n], names, text);
      assert diagnostics == diagnostics[..n] + [diagnostics[n]];
      assert DiagnosticFactors(diagnostics)[..|DiagnosticFactors(diagnostics)| - 1] == DiagnosticFactors(diagnostics[..n]);
    }
  }

  predicate IsGrave(d: Diagnostic) { d.severity == OtherSeverity("error") || d.severity == OtherSeverity("fatal") }
  predicate IsWarning(d: Diagnostic) { d.severity == OtherSeverity("warning") }

  lemma KindsOfSeverity(d: Diagnostic)
    ensures OfSeverity(d, GRAVE) <==> IsGrave(d)
    ensures OfSeverity(d, CAUTIONARY) <==> IsWarning(d)
  {
  }

  lemma StructuredConcerns(diagnostics: seq<Diagnostic>, text: string)
    ensures text in SeverityDetails(DiagnosticFactors(diagnostics), GRAVE) <==>
            exists d :: d in diagnostics && IsGrave(d) && d.message == text
    ensures text in SeverityDetails(DiagnosticFactors(diagnostics), CAUTIONARY) <==>
            exists d :: d in diagnostics && IsWarning(d) && d.message == text
  {
    hide *;
    SeverityDetailsMeaning(diagnostics, GRAVE, text);
    SeverityDetailsMeaning(diagnostics, CAUTIONARY, text);
    forall d ensures (OfSeverity(d, GRAVE) <==> IsGrave(d)) && (OfSeverity(d, CAUTIONARY) <==> IsWarning(d)) {
      KindsOfSeverity(d);
    }
  }

  /**
  The structured risk keeps each diagnostic as one factor, in order; its data-quality concerns are the messages of errors and
  fatal ones, its statistical concerns those of warnings, and it assesses neither a level nor a score.
  */
  lemma StructuredRiskExactly(s: AgentState)
    ensures var risk, diagnostics := AssessStructured(s), if s.result.Some? then s.result.value.diagnostics else [];
            && |risk.factors| == |diagnostics|
            && (forall i :: 0 <= i < |diagnostics| ==>
                  risk.factors[i]
                  == RiskFactor(AnalyzerCode(diagnostics[i].code), diagnostics[i].severity, AnalyzerRisk, diagnostics[i].message))
            && (forall text :: text in risk.dataQualityConcerns <==>
                  exists d :: d in diagnostics && IsGrave(d) && d.message == text)
            && (forall text :: text in risk.statisticalConcerns <==>
                  exists d :: d in diagnostics && IsWarning(d) && d.message == text)
            && risk.status == PartialAssessment && risk.level == UnknownRisk && risk.score == None
            && risk.confidence == UnknownConfidence && risk.citations == s.risk.citations
  {
    hide *;
    var diagnostics := if s.result.Some? then s.result.value.diagnostics else [];
    OneFactorPerDiagnostic(diagnostics);
    StructuredParts(s);
    forall text
      ensures text in AssessStructured(s).dataQualityConcerns <==> exists d :: d in diagnostics && IsGrave(d) && d.message == text
      ensures text in AssessStructured(s).statisticalConcerns <==> exists d :: d in diagnostics && IsWarning(d) && d.message == text
    {
      StructuredConcerns(diagnostics, text);
    }
  }

  lemma StructuredParts(s: AgentState)
    ensures var risk, factors := AssessStructured(s), DiagnosticFactors(if s.result.Some? then s.result.value.diagnostics else []);
            && risk.factors == factors && risk.dataQualityConcerns == SeverityDetails(factors, GRAVE)
            && risk.statisticalConcerns == SeverityDetails(factors, CAUTIONARY)
            && risk.status == PartialAssessment && risk.level == UnknownRisk && risk.score == None
            && risk.confidence == UnknownConfidence && risk.citations == s.risk.citations
  {
    hide DiagnosticFactors, SeverityDetails, GRAVE, CAUTIONARY;
  }

  /** The lift is unclear exactly if nothing is known of it, and otherwise the first known one gives its sign. */
  lemma LiftSignalExactly(s: AgentState)
    ensures LiftSignalOf(s) == UnclearLift <==>
              s.analysis.observedLift == None && s.analysis.comparison == None && s.impact.relativeLift == None
              && s.impact.absoluteLift == None
    ensures s.analysis.observedLift.Some? ==>
              LiftSignalOf(s) == if s.analysis.observedLift.value < 0.0 then NegativeLift else PositiveLift
    ensures s.analysis.observedLift == None && s.impact.relativeLift.Some?
            && (s.analysis.comparison == None || s.analysis.comparison.value.relativeLift == None) ==>
              LiftSignalOf(s) == if s.impact.relativeLift.value < 0.0 then NegativeLift else PositiveLift
    ensures s.analysis.observedLift == None && s.analysis.comparison.Some? && s.analysis.comparison.value.relativeLift.Some? ==>
              LiftSignalOf(s) == if s.analysis.comparison.value.relativeLift.value < 0.0 then NegativeLift else PositiveLift
  {
  }
}
