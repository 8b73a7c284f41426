/** With the registered tools: exactly which stored metrics, citations and notes a rollout is recommended on. */
module RolloutConditions {
  import opened Text
  import opened MetricStore
  import opened AgentStates
  import opened Workflow
  import opened WorkflowRuns
  import opened WorkflowOutcomes
  import opened Guardrail
  import AnalysisAgent = ExperimentAnalysisAgent
  import ImpactAgent = BusinessImpactAgent
  import RiskAgent = RiskAssessmentAgent
  import DecisionAgent

  // ---------------------------------------------------------------- the conditions

  /** The relative lift of the registered tools, or the absolute one for a baseline of zero. */
  function ComputedLift(pair: Comparison): real {
    var absolute := AnalysisAgent.Round6(pair.treatmentValue - pair.controlValue);
    if pair.controlValue == 0.0 then absolute else AnalysisAgent.Round6(absolute / pair.controlValue)
  }

  /** The lift of the analysis: the stored or computed relative one, or else the absolute one. */
  function AnalyzedLift(pair: Comparison): real {
    if pair.relativeLift.Some? then pair.relativeLift.value else pair.absoluteDelta
  }

  /** The primary metric did not fall, has a p-value, and both lifts are positive. */
  predicate PrimaryGrew(pair: Comparison) {
    && pair.controlValue <= pair.treatmentValue && pair.pValue.Some?
    && AnalyzedLift(pair) > 0.0 && ComputedLift(pair) > 0.0
  }

  /** What a full run finds outside, when retrieval and the repository answer. */
  datatype Evidence = Evidence(
    experiment: AnalysisAgent.Experiment, metrics: seq<Metric>, chunks: seq<Chunk>, citations: seq<Citation>,
    annualized: Option<AnnualAmount>, named: bool)

  function EvidenceFor(q: Query, env: Environment): Evidence
    requires env.retrieval.Retrieved? && env.repository.Resolved?
  {
    Evidence(env.repository.experiment, env.repository.metrics, env.retrieval.chunks, env.retrieval.citations,
             env.impact.annualized, q.experimentId.Some? && q.experimentId.value != "")
  }

  function PrimaryPair(v: Evidence): Option<Comparison> { AnalysisAgent.PairOf(v.metrics, v.experiment.primaryMetric) }

  lemma EvidenceFields(q: Query, env: Environment)
    requires env.retrieval.Retrieved? && env.repository.Resolved?
    ensures var v := EvidenceFor(q, env);
            && v.experiment == env.repository.experiment && v.metrics == env.repository.metrics
            && v.chunks == env.retrieval.chunks && v.citations == env.retrieval.citations
            && v.annualized == env.impact.annualized && (v.named <==> q.experimentId.Some? && q.experimentId.value != "")
            && PrimaryPair(v) == AnalysisAgent.PairOf(env.repository.metrics, env.repository.experiment.primaryMetric)
  {
    hide AnalysisAgent.PairOf;
  }

  /** The limitations that the two evidence agents note: the experiment's own and the program's. */
  function NotedLimitations(v: Evidence, pair: Comparison): seq<string> {
    v.experiment.imperfections
    + (if AnalysisAgent.MatchingCitations(v.citations, v.experiment) == [] then [AnalysisAgent.NO_CITATIONS_NOTE] else [])
    + (if pair.controlValue == 0.0 then [ImpactAgent.ZERO_BASELINE_NOTE] else [])
    + (if v.annualized.Some? then [] else [ImpactAgent.NO_ANNUALIZED_NOTE])
  }

  function One(condition: bool): nat { if condition then 1 else 0 }

  /**
   The concerns that remain about good evidence: an experiment without any identifier, no retrieved
   chunks, each distinct note that mentions a data-quality term, and a constraint on the rollout.
   */
  function Concerns(v: Evidence, pair: Comparison): nat {
    One(AnalysisAgent.ExperimentId(v.experiment) == "" && !v.named) + LateConcerns(v, pair)
  }

  function LateConcerns(v: Evidence, pair: Comparison): nat {
    One(v.chunks == [])
    + |FirstOccurrences(RiskAgent.MentionsQuality(NotedLimitations(v, pair)))|
    + One(ContainsAny(Lower(v.experiment.businessDecision), RiskAgent.ROLLOUT_TERMS))
  }

  /** The evidence that a rollout is recommended on. */
  ghost predicate SupportsRollout(v: Evidence) {
    && PrimaryPair(v).Some? && PrimaryGrew(PrimaryPair(v).value)
    && v.experiment.primaryMetric != "" && v.citations != []
    && !SomeGuardrailWorsened(v.metrics, v.experiment.primaryMetric)
    && Concerns(v, PrimaryPair(v).value) <= 1
  }

  /** Evidence that leaves no concern: one significant, cited and improved metric. */
  const GOOD_EVIDENCE := Evidence(
    AnalysisAgent.Experiment("db", "exp", "conversion", [], ""),
    [Metric("conversion", "control", 1.0, None, None), Metric("conversion", "treatment", 2.0, Some(1.0), Some(0.01))],
    [Chunk("exp", "text")], [Citation("doc", "exp", "section", "quote")], Some(AnnualAmount(None)), false)

  lemma GoodPair()
    ensures PrimaryPair(GOOD_EVIDENCE) == Some(Comparison("conversion", 1.0, 2.0, 1.0, Some(1.0), Some(0.01)))
    ensures ComputedLift(PrimaryPair(GOOD_EVIDENCE).value) == 1.0
  {
    var metrics := GOOD_EVIDENCE.metrics;
    assert metrics[..1][..0] == [];
    assert LastMatch(metrics, "conversion", "treatment") == Some(metrics[1]);
    assert LastMatch(metrics[..1], "conversion", "control") == Some(metrics[0]);
    assert AnalysisAgent.Round6(1.0) == 1.0;
  }

  lemma NoGoodGuardrail(name: string)
    requires name != "conversion"
    ensures LastMatch(GOOD_EVIDENCE.metrics, name, "control") == None
  {
    var metrics := GOOD_EVIDENCE.metrics;
    var none: seq<Metric> := [];
    assert metrics[..1][..0] == none;
    assert LastMatch(none, name, "control") == None;
    assert LastMatch(metrics[..1], name, "control") == None;
  }

  /** The conditions can be met. */
  lemma GoodEvidenceSupportsRollout()
    ensures SupportsRollout(GOOD_EVIDENCE)
  {
    GoodPair();
    forall name | name != "conversion" ensures !StoredWorse(GOOD_EVIDENCE.metrics, name) {
      NoGoodGuardrail(name);
    }
    assert !SomeGuardrailWorsened(GOOD_EVIDENCE.metrics, "conversion");
    assert AnalysisAgent.MatchingCitations(GOOD_EVIDENCE.citations, GOOD_EVIDENCE.experiment) != [];
    var pair := PrimaryPair(GOOD_EVIDENCE).value;
    assert NotedLimitations(GOOD_EVIDENCE, pair) == [];
    NoTermInNothing(RiskAgent.ROLLOUT_TERMS);
    assert FirstOccurrences(RiskAgent.MentionsQuality([])) == [];
    hide LastMatch, ContainsAny, SomeGuardrailWorsened, PrimaryPair, NotedLimitations;
    assert Concerns(GOOD_EVIDENCE, pair) == 0;
  }

  // ---------------------------------------------------------------- what the agents make of it

  /** The impact that the registered tools estimate for the pair. */
  function EstimateFor(v: Evidence, analysis: Analysis, pair: Comparison): Impact {
    var absolute := AnalysisAgent.Round6(pair.treatmentValue - pair.controlValue);
    Impact(Estimated, Some(pair.controlValue), Some(pair.treatmentValue), Some(absolute),
           if pair.controlValue == 0.0 then None else Some(AnalysisAgent.Round6(absolute / pair.controlValue)),
           v.annualized, analysis.confidence,
           analysis.limitations
           + (if pair.controlValue == 0.0 then [ImpactAgent.ZERO_BASELINE_NOTE] else [])
           + (if v.annualized.Some? then [] else [ImpactAgent.NO_ANNUALIZED_NOTE]),
           if analysis.citations != [] then analysis.citations else v.citations)
  }

  /** The state before the risk assessment holds the evidence. */
  ghost predicate Holds(v: Evidence, pair: Comparison, s: AgentState) {
    && PrimaryPair(v) == Some(pair)
    && s.analysis == AnalysisAgent.AnalysisOf(v.experiment, v.metrics, AnalysisAgent.MatchingCitations(v.citations, v.experiment))
    && s.metadata == Metadata(v.experiment.primaryMetric, v.experiment.imperfections, v.experiment.businessDecision)
    && s.impact == EstimateFor(v, s.analysis, pair)
    && s.chunks == v.chunks && s.citations == v.citations
    && (v.named <==> s.experimentIds != [] && s.experimentIds[0] != "")
  }

  /** The fields of a completed analysis. */
  lemma AnalysisFields(v: Evidence, pair: Comparison, s: AgentState)
    requires Holds(v, pair, s)
    ensures var a := s.analysis;
            && a.status == AnalysisCompleted && a.comparison == Some(pair) && a.observedLift == pair.relativeLift
            && a.control == Some(pair.controlValue) && a.treatment == Some(pair.treatmentValue)
            && a.significance == pair.pValue && a.primaryMetric == v.experiment.primaryMetric
            && a.experimentId == AnalysisAgent.ExperimentId(v.experiment)
            && a.citations == AnalysisAgent.MatchingCitations(v.citations, v.experiment)
            && a.limitations == v.experiment.imperfections
                 + (if a.citations == [] then [AnalysisAgent.NO_CITATIONS_NOTE] else [])
            && (pair.pValue.Some? ==> a.confidence in {High, Medium})
  {
    hide AnalysisAgent.PairOf, AnalysisAgent.Guardrails, NamesOf, AnalysisAgent.MatchingCitations,
      AnalysisAgent.ExperimentId, AnalysisAgent.NO_CITATIONS_NOTE, EstimateFor;
  }

  /** How the stored pair's fields hang together. */
  lemma PairFields(v: Evidence)
    requires PrimaryPair(v).Some?
    ensures var pair := PrimaryPair(v).value;
            && pair.absoluteDelta == AnalysisAgent.Round6(pair.treatmentValue - pair.controlValue)
            && (pair.relativeLift == None ==> pair.controlValue == 0.0)
  {
    hide LastMatch, AnalysisAgent.Round6;
  }

  /** On the evidence, the signals that the decision looks at are those of the pair. */
  lemma Signals(v: Evidence, pair: Comparison, s: AgentState)
    requires Holds(v, pair, s)
    ensures DecisionAgent.LiftDirection(s) == DecisionAgent.PositiveDirection <==> AnalyzedLift(pair) > 0.0
    ensures DecisionAgent.LiftDirection(s) == DecisionAgent.NegativeDirection <==> AnalyzedLift(pair) < 0.0
    ensures RiskAgent.LiftSignalOf(s) == if AnalyzedLift(pair) < 0.0 then RiskAgent.NegativeLift else RiskAgent.PositiveLift
    ensures DecisionAgent.BusinessPositive(s.impact) <==> ComputedLift(pair) > 0.0
    ensures DecisionAgent.PrimaryWorsened(s.analysis) <==> pair.treatmentValue < pair.controlValue
    ensures s.analysis.status == AnalysisCompleted && s.impact.status == Estimated
    ensures s.analysis.significance == pair.pValue
  {
    AnalysisFields(v, pair, s);
    PairFields(v);
    assert s.impact == EstimateFor(v, s.analysis, pair);
    hide Holds, AnalysisAgent.Round6;
  }

  // ---------------------------------------------------------------- counting the concerns

  lemma {:induction false} MentionsMeaning(notes: seq<string>, note: string)
    ensures note in RiskAgent.MentionsQuality(notes)
       <==> note in notes && ContainsAny(Lower(note), RiskAgent.DATA_QUALITY_TERMS)
  {
    hide ContainsAny, Lower;
    if notes != [] {
      var n := |notes| - 1;
      MentionsMeaning(notes[..n], note);
      assert notes == notes[..n] + [notes[n]];
    }
  }

  lemma {:induction false} NonEmptyNotesMeaning(notes: seq<string>, note: string)
    ensures note in RiskAgent.NonEmptyNotes(notes) <==> note in notes && note != ""
  {
    if notes != [] {
      var n := |notes| - 1;
      NonEmptyNotesMeaning(notes[..n], note);
      assert notes == notes[..n] + [notes[n]];
    }
  }

  lemma {:induction false} DistinctCount(values: seq<string>)
    requires forall i, j :: 0 <= i < j < |values| ==> values[i] != values[j]
    ensures |set v | v in values| == |values|
  {
    if values != [] {
      var n := |values| - 1;
      DistinctCount(values[..n]);
      assert values == values[..n] + [values[n]];
      assert (set v | v in values) == (set v | v in values[..n]) + {values[n]};
    }
  }

  /** Lists with the same non-empty members have as many distinct ones. */
  lemma SameCount(a: seq<string>, b: seq<string>)
    requires forall v :: v != "" ==> (v in a <==> v in b)
    ensures |FirstOccurrences(a)| == |FirstOccurrences(b)|
  {
    FirstOccurrencesMeaning(a);
    FirstOccurrencesMeaning(b);
    DistinctCount(FirstOccurrences(a));
    DistinctCount(FirstOccurrences(b));
    hide FirstOccurrences;
    assert (set v | v in FirstOccurrences(a)) == (set v | v in FirstOccurrences(b));
  }

  /** The limitations of both agents together are the noted ones. */
  lemma LimitationsOfEvidence(v: Evidence, pair: Comparison, s: AgentState, note: string)
    requires Holds(v, pair, s)
    ensures note in s.analysis.limitations + s.impact.limitations <==> note in NotedLimitations(v, pair)
    ensures note in v.experiment.imperfections ==> note in NotedLimitations(v, pair)
  {
    AnalysisFields(v, pair, s);
    assert s.impact == EstimateFor(v, s.analysis, pair);
    hide Holds, AnalysisAgent.NO_CITATIONS_NOTE, ImpactAgent.ZERO_BASELINE_NOTE, ImpactAgent.NO_ANNUALIZED_NOTE,
      AnalysisAgent.MatchingCitations;
  }

  lemma QualityNoteCount(v: Evidence, pair: Comparison, s: AgentState)
    requires Holds(v, pair, s)
    ensures |RiskAgent.QualityNotes(s, RiskAgent.Limitations(s))|
         == |FirstOccurrences(RiskAgent.MentionsQuality(NotedLimitations(v, pair)))|
  {
    assert s.metadata.imperfections == v.experiment.imperfections;
    hide FirstOccurrences, RiskAgent.MentionsQuality, RiskAgent.NonEmptyNotes, NotedLimitations, ContainsAny, Lower, Holds;
    var all := s.analysis.limitations + s.impact.limitations;
    FirstOccurrencesMeaning(all);
    var sources := RiskAgent.Limitations(s) + RiskAgent.NonEmptyNotes(s.metadata.imperfections);
    var noted := NotedLimitations(v, pair);
    forall note | note != ""
      ensures note in RiskAgent.MentionsQuality(sources) <==> note in RiskAgent.MentionsQuality(noted)
    {
      MentionsMeaning(sources, note);
      MentionsMeaning(noted, note);
      LimitationsOfEvidence(v, pair, s, note);
      NonEmptyNotesMeaning(s.metadata.imperfections, note);
    }
    SameCount(RiskAgent.MentionsQuality(sources), RiskAgent.MentionsQuality(noted));
  }

  lemma {:induction false} QualityFactorCount(notes: seq<string>)
    ensures |RiskAgent.QualityFactors(notes)| == |notes|
    ensures forall f :: f in RiskAgent.QualityFactors(notes) ==> f.severity == MediumSeverity
  {
    if notes != [] {
      QualityFactorCount(notes[..|notes| - 1]);
    }
  }

  lemma NothingMatches(citations: seq<Citation>, e: AnalysisAgent.Experiment)
    ensures citations == [] ==> AnalysisAgent.MatchingCitations(citations, e) == []
  {
  }

  /** An experiment without any identifier is one medium factor. */
  lemma IdentifierCount(v: Evidence, pair: Comparison, s: AgentState)
    requires Holds(v, pair, s)
    ensures |RiskAgent.IdentifierFactors(s)| == One(AnalysisAgent.ExperimentId(v.experiment) == "" && !v.named)
    ensures forall f :: f in RiskAgent.IdentifierFactors(s) ==> f.severity == MediumSeverity
  {
    HeldIds(v, pair, s);
    hide Holds, RiskAgent.Describe, AnalysisAgent.ExperimentId, AnalysisAgent.MatchingCitations, AnalysisAgent.AnalysisOf,
      EstimateFor, AnalysisAgent.PairOf;
  }

  lemma HeldIds(v: Evidence, pair: Comparison, s: AgentState)
    requires Holds(v, pair, s)
    ensures v.named <==> s.experimentIds != [] && s.experimentIds[0] != ""
    ensures s.analysis.experimentId == AnalysisAgent.ExperimentId(v.experiment)
  {
    AnalysisFields(v, pair, s);
    hide AnalysisAgent.AnalysisOf, AnalysisAgent.MatchingCitations, EstimateFor, AnalysisAgent.PairOf, AnalysisAgent.ExperimentId;
  }

  /** A significant, positive pair leaves no statistical and no lift factor, except that a primary metric needs a name. */
  lemma StatisticalCount(v: Evidence, pair: Comparison, s: AgentState)
    requires Holds(v, pair, s) && pair.pValue.Some? && AnalyzedLift(pair) > 0.0
    ensures RiskAgent.LiftFactors(s) == []
    ensures if v.experiment.primaryMetric != "" then RiskAgent.StatisticalFactors(s) == []
            else exists f :: f in RiskAgent.StatisticalFactors(s) && f.severity == HighSeverity
  {
    AnalysisFields(v, pair, s);
    Signals(v, pair, s);
    assert s.impact.confidence == s.analysis.confidence;
    hide Holds, RiskAgent.LiftSignalOf, RiskAgent.Describe, AnalysisAgent.ExperimentId, AnalysisAgent.MatchingCitations;
    if v.experiment.primaryMetric == "" {
      assert RiskAgent.StatisticalFactors(s)[0].severity == HighSeverity;
      assert RiskAgent.StatisticalFactors(s)[0] in RiskAgent.StatisticalFactors(s);
    }
  }

  /** The groups after the guardrails. */
  lemma LateFactors(v: Evidence, pair: Comparison, s: AgentState)
    requires Holds(v, pair, s)
    ensures |RiskAgent.EvidenceFactors(s, RiskAgent.Citations(s))| == One(v.citations == [] || v.chunks == [])
    ensures |RiskAgent.RolloutFactors(s)| == One(ContainsAny(Lower(v.experiment.businessDecision), RiskAgent.ROLLOUT_TERMS))
    ensures forall f :: f in RiskAgent.EvidenceFactors(s, RiskAgent.Citations(s)) + RiskAgent.RolloutFactors(s)
              ==> f.severity == MediumSeverity
  {
    AnalysisFields(v, pair, s);
    NothingMatches(v.citations, v.experiment);
    assert s.impact.status == Estimated && s.chunks == v.chunks && s.citations == v.citations
      && s.metadata.businessDecision == v.experiment.businessDecision;
    hide Holds, RiskAgent.Describe, AnalysisAgent.MatchingCitations;
    if v.experiment.businessDecision == "" {
      NoTermInNothing(RiskAgent.ROLLOUT_TERMS);
    }
    hide ContainsAny, Lower;
  }

  lemma NoTermInNothing(terms: seq<string>)
    requires forall k :: 0 <= k < |terms| ==> terms[k] != ""
    ensures !ContainsAny(Lower(""), terms)
  {
  }

  /** The groups of factors that good evidence can leave. */
  lemma RemainingGroups(s: AgentState, identifier: seq<RiskFactor>, statistical: seq<RiskFactor>, late: seq<RiskFactor>)
    requires identifier == RiskAgent.IdentifierFactors(s) && statistical == RiskAgent.StatisticalFactors(s)
    requires RiskAgent.LiftFactors(s) == [] && RiskAgent.GuardrailFactors(s.analysis.guardrails) == []
    requires late == RiskAgent.FactorsAfter(s)
    ensures RiskAgent.Factors(s) == identifier + statistical + late
  {
    hide RiskAgent.IdentifierFactors, RiskAgent.StatisticalFactors, RiskAgent.LiftFactors, RiskAgent.GuardrailFactors,
      RiskAgent.FactorsAfter;
  }

  lemma LateGroups(s: AgentState)
    ensures RiskAgent.FactorsAfter(s) == RiskAgent.EvidenceFactors(s, RiskAgent.Citations(s))
              + RiskAgent.QualityFactors(RiskAgent.QualityNotes(s, RiskAgent.Limitations(s))) + RiskAgent.RolloutFactors(s)
  {
    hide RiskAgent.EvidenceFactors, RiskAgent.QualityFactors, RiskAgent.RolloutFactors, RiskAgent.QualityNotes,
      RiskAgent.Limitations, RiskAgent.Citations;
  }

  lemma LateConcernsAre(v: Evidence, pair: Comparison)
    ensures LateConcerns(v, pair)
         == One(v.chunks == []) + |FirstOccurrences(RiskAgent.MentionsQuality(NotedLimitations(v, pair)))|
            + One(ContainsAny(Lower(v.experiment.businessDecision), RiskAgent.ROLLOUT_TERMS))
  {
    hide FirstOccurrences, RiskAgent.MentionsQuality, NotedLimitations, ContainsAny, Lower, RiskAgent.ROLLOUT_TERMS;
  }

  /** The groups after the guardrails number the concerns about chunks, notes and the rollout. */
  lemma LateCount(v: Evidence, pair: Comparison, s: AgentState)
    requires Holds(v, pair, s) && v.citations != []
    ensures |RiskAgent.FactorsAfter(s)| == LateConcerns(v, pair)
    ensures forall f :: f in RiskAgent.FactorsAfter(s) ==> f.severity == MediumSeverity
  {
    var notes := RiskAgent.QualityNotes(s, RiskAgent.Limitations(s));
    var evidence, rollout := RiskAgent.EvidenceFactors(s, RiskAgent.Citations(s)), RiskAgent.RolloutFactors(s);
    var quality := RiskAgent.QualityFactors(notes);
    hide *;
    LateGroups(s);
    LateConcernsAre(v, pair);
    LateFactors(v, pair, s);
    QualityFactorCount(notes);
    QualityNoteCount(v, pair, s);
  }

  /** On good evidence the risk factors number the concerns, all of them medium, unless the primary metric has no name. */
  lemma FactorCount(v: Evidence, pair: Comparison, s: AgentState)
    requires Holds(v, pair, s) && pair.pValue.Some? && AnalyzedLift(pair) > 0.0
    requires !SomeDeteriorated(s.analysis) && v.citations != []
    ensures if v.experiment.primaryMetric != ""
            then
              && |RiskAgent.Factors(s)| == Concerns(v, pair)
              && forall f :: f in RiskAgent.Factors(s) ==> f.severity == MediumSeverity
            else exists f :: f in RiskAgent.Factors(s) && f.severity == HighSeverity
  {
    NoGuardrailFactors(s.analysis.guardrails);
    assert Concerns(v, pair) == One(AnalysisAgent.ExperimentId(v.experiment) == "" && !v.named) + LateConcerns(v, pair);
    hide *;
    IdentifierCount(v, pair, s);
    StatisticalCount(v, pair, s);
    LateCount(v, pair, s);
    var identifier, statistical := RiskAgent.IdentifierFactors(s), RiskAgent.StatisticalFactors(s);
    var late := RiskAgent.FactorsAfter(s);
    RemainingGroups(s, identifier, statistical, late);
    if v.experiment.primaryMetric == "" {
      var f :| f in statistical && f.severity == HighSeverity;
      assert f in identifier + statistical + late;
    }
  }

  lemma AssessedFields(s: AgentState)
    ensures var risk := RiskAgent.Assess(s);
            && (s.analysis.primaryMetric != "" ==> RiskAgent.HasContext(s))
            && risk.citations == RiskAgent.Citations(s)
            && if RiskAgent.HasContext(s) then risk.score.Some? && risk.factors == RiskAgent.Factors(s) else risk.score == None
  {
    hide RiskAgent.Factors, RiskAgent.Limitations, FirstOccurrences, RiskAgent.Citations, RiskAgent.ConfidenceOf,
      RiskAgent.ScoreOf, RiskAgent.CategoryDetails, RiskAgent.StatusOf, RiskAgent.NO_CONTEXT_NOTE;
  }

  /** Without deteriorated guardrails no factor is in their category. */
  lemma NoGuardrailCategory(s: AgentState)
    requires !SomeDeteriorated(s.analysis)
    ensures forall f :: f in RiskAgent.Factors(s) ==> f.category != GuardrailRisk
  {
    RiskAgent.FactorsAreOrdinary(s);
    NoGuardrailFactors(s.analysis.guardrails);
    hide RiskAgent.FactorsBefore, RiskAgent.FactorsAfter, RiskAgent.GuardrailFactors;
  }

  /** Given citations and good evidence, the risk is manageable exactly with a named primary metric and at most one concern. */
  lemma RiskSupports(v: Evidence, pair: Comparison, assessed: AgentState)
    requires Holds(v, pair, assessed) && PrimaryGrew(pair) && !SomeDeteriorated(assessed.analysis) && v.citations != []
    ensures var risk := RiskAgent.Assess(assessed);
            (risk.score.Some? && |risk.factors| <= 1
             && forall f :: f in risk.factors ==> f.severity == MediumSeverity && f.category != GuardrailRisk)
            <==> v.experiment.primaryMetric != "" && Concerns(v, pair) <= 1
  {
    AnalysisFields(v, pair, assessed);
    NoGuardrailCategory(assessed);
    assert pair.pValue.Some? && AnalyzedLift(pair) > 0.0;
    hide *;
    FactorCount(v, pair, assessed);
    AssessedFields(assessed);
  }

  /** Given citations, the decision's evidence is complete and positive exactly under the stated conditions. */
  lemma EvidenceSupports(v: Evidence, pair: Comparison, assessed: AgentState, s: AgentState)
    requires Holds(v, pair, assessed) && ReadyToDecide(assessed, s) && v.citations != []
    ensures RolloutEvidence(s) <==>
              && PrimaryGrew(pair) && !SomeDeteriorated(s.analysis)
              && v.experiment.primaryMetric != "" && Concerns(v, pair) <= 1
  {
    SameSignals(assessed, s);
    hide Holds, SomeDeteriorated, Concerns, AnalyzedLift, ComputedLift, RiskAgent.Assess, DecisionAgent.LiftDirection,
      DecisionAgent.BusinessPositive, DecisionAgent.PrimaryWorsened, RiskAgent.LiftSignalOf;
    Signals(v, pair, assessed);
    if PrimaryGrew(pair) && !SomeDeteriorated(s.analysis) {
      RiskSupports(v, pair, assessed);
    }
  }

  lemma SameSignals(assessed: AgentState, s: AgentState)
    requires s.analysis == assessed.analysis && s.impact == assessed.impact
    ensures DecisionAgent.LiftDirection(s) == DecisionAgent.LiftDirection(assessed)
  {
  }

  /** The registered validation lets complete evidence pass exactly if retrieval gave a citation. */
  lemma ValidationOfEvidence(v: Evidence, pair: Comparison, assessed: AgentState, s: AgentState,
                             tools: DecisionAgent.ToolAnswers)
    requires Holds(v, pair, assessed) && ReadyToDecide(assessed, s) && s.citations == assessed.citations
    requires DecisionAgent.RegisteredValidation(tools) && RolloutEvidence(s)
    ensures DecisionAgent.ValidationPasses(s, tools) <==> v.citations != []
  {
    CompleteEvidenceIsAssessed(assessed, s, s);
    AnalysisFields(v, pair, assessed);
    AssessedFields(assessed);
    NothingMatches(v.citations, v.experiment);
    CitationsOfEvidence(v, pair, assessed, s);
    DecisionAgent.EmptyCitations(s);
    PassesExactly(s, tools);
    EvidenceMeans(s);
    hide *;
  }

  lemma CitationsOfEvidence(v: Evidence, pair: Comparison, assessed: AgentState, s: AgentState)
    requires Holds(v, pair, assessed) && s.citations == assessed.citations
    requires s.analysis == assessed.analysis && s.impact == assessed.impact && s.risk.citations == RiskAgent.Citations(assessed)
    requires s.analysis.citations == AnalysisAgent.MatchingCitations(v.citations, v.experiment)
    requires v.citations == [] ==> s.analysis.citations == []
    ensures DecisionAgent.AllCitations(s) == [] <==> v.citations == []
  {
    hide AnalysisAgent.MatchingCitations, AnalysisAgent.AnalysisOf, PrimaryPair;
  }

  /** What the registered validation demands. */
  lemma PassesExactly(s: AgentState, tools: DecisionAgent.ToolAnswers)
    requires DecisionAgent.RegisteredValidation(tools)
    ensures DecisionAgent.ValidationPasses(s, tools) <==>
              && s.analysis.status == AnalysisCompleted && s.impact.status !in {ImpactNotRequired, ImpactInsufficient}
              && s.risk.status !in {RiskNotRequired, RiskInsufficient} && s.analysis.significance.Some?
              && DecisionAgent.FirstCitations(DecisionAgent.AllCitations(s)) != []
  {
    hide DecisionAgent.FirstCitations, DecisionAgent.AllCitations;
    assert DecisionAgent.Validated(s, tools) == Some(DecisionAgent.ValidateRequiredEvidence(DecisionAgent.PayloadOf(s)));
  }

  // ---------------------------------------------------------------- whole runs

  /** With the registered lift tools the impact agent's estimate is the stated one. */
  lemma BuildsEstimate(v: Evidence, pair: Comparison, s: AgentState, p: ImpactAgent.ImpactInputs)
    requires ImpactAgent.RegisteredLifts(p.lifts) && p.annualized == v.annualized && s.citations == v.citations
    requires s.analysis.control == Some(pair.controlValue) && s.analysis.treatment == Some(pair.treatmentValue)
    ensures ImpactAgent.Build(s, p).Ok? && ImpactAgent.Build(s, p).value.0 == EstimateFor(v, s.analysis, pair)
  {
    var b, t := pair.controlValue, pair.treatmentValue;
    assert ImpactAgent.Values(s) == (Some(b), Some(t));
    assert p.lifts.absolute(b, t) == ImpactAgent.CalculateAbsoluteLift(b, t);
    assert p.lifts.relative(b, ImpactAgent.CalculateAbsoluteLift(b, t), t)
        == ImpactAgent.CalculateRelativeLift(b, ImpactAgent.CalculateAbsoluteLift(b, t), t);
    hide ImpactAgent.Values, AnalysisAgent.Round6, ImpactAgent.ZERO_BASELINE_NOTE, ImpactAgent.NO_ANNUALIZED_NOTE;
  }

  lemma HoldsAfterImpact(v: Evidence, pair: Comparison, before: AgentState, s: AgentState, t: AgentState,
                         answer: AnalysisAgent.RepositoryAnswer, p: ImpactAgent.ImpactInputs)
    requires PrimaryPair(v) == Some(pair) && answer == AnalysisAgent.Resolved(v.experiment, v.metrics)
    requires Analyzed(before, s, answer) && ImpactFollows(s, t, p) && before.citations == v.citations
    requires ImpactAgent.RegisteredLifts(p.lifts) && p.annualized == v.annualized
    requires s.citations == v.citations && t.analysis == s.analysis && t.metadata == s.metadata
    requires t.chunks == v.chunks && t.citations == v.citations
    requires v.named <==> t.experimentIds != [] && t.experimentIds[0] != ""
    ensures Holds(v, pair, t)
  {
    hide ImpactAgent.Build, AnalysisAgent.Guardrails, NamesOf, AnalysisAgent.MatchingCitations, EstimateFor,
      AnalysisAgent.ExperimentId, AnalysisAgent.NO_CITATIONS_NOTE, AnalysisAgent.PairOf, AnalysisAgent.AnalysisConfidence;
    BuildsEstimate(v, pair, s, p);
  }

  lemma InitialIds(q: Query)
    ensures var s := PlannerState(q);
            (q.experimentId.Some? && q.experimentId.value != "") <==> s.experimentIds != [] && s.experimentIds[0] != ""
  {
    hide PlannedAgents, Decimal;
  }

  lemma HoldsInRun(q: Query, env: Environment, states: seq<AgentState>, pair: Comparison)
    requires DefaultRun(q, env, states) && FullRun(q) && ImpactAgent.RegisteredLifts(env.impact.lifts)
    requires env.retrieval.Retrieved? && env.repository.Resolved? && PrimaryPair(EvidenceFor(q, env)) == Some(pair)
    ensures |states| == 8 && Holds(EvidenceFor(q, env), pair, states[3]) && states[4].citations == states[3].citations
  {
    hide *;
    EvidenceFields(q, env);
    OrderNames();
    DefaultRunIsARun(q, env, states);
    DefaultAgentsBehave(env);
    FirstFields(q);
    InitialIds(q);
    FirstSteps(q, env, states);
    DefaultStep(q, env, states, 1);
    Dispatch(states[0], env);
    RetrievalStep(q, states[0], states[1], env.retrieval);
    var agents := DefaultAgents(env);
    FieldsKept(q, agents, states);
    HoldsAfterImpact(EvidenceFor(q, env), pair, states[1], states[2], states[3], env.repository, env.impact);
  }

  lemma FieldsKept(q: Query, agents: Agents, states: seq<AgentState>)
    requires IsRun(q, agents, states) && Behave(agents) && |states| == 8
    ensures states[3].citations == states[2].citations == states[1].citations == states[4].citations
    ensures states[3].chunks == states[1].chunks
    ensures states[3].analysis == states[2].analysis && states[3].metadata == states[2].metadata
    ensures states[3].experimentIds == states[0].experimentIds
  {
    RunsOnlyGrow(q, agents, states, 0, 3);
    RunsOnlyGrow(q, agents, states, 1, 2);
    RunsOnlyGrow(q, agents, states, 2, 3);
    RunsOnlyGrow(q, agents, states, 3, 4);
    hide IsRun, Behave;
  }

  /**
   With the registered lift and validation tools, a run recommends a rollout if and only if it answers a
   deciding question, retrieval and the repository answered, and the evidence they gave supports it.
   */
  lemma RolloutWithRegisteredToolsExactly(q: Query, env: Environment, states: seq<AgentState>)
    requires DefaultRun(q, env, states)
    requires ImpactAgent.RegisteredLifts(env.impact.lifts) && DecisionAgent.RegisteredValidation(env.tools)
    ensures |states| == 8
    ensures states[7].decision.recommendation == Rollout <==>
              FullRun(q) && env.retrieval.Retrieved? && env.repository.Resolved? && SupportsRollout(EvidenceFor(q, env))
  {
    hide *;
    RolloutExactly(q, env, states);
    if states[7].decision.recommendation == Rollout {
      RolloutFromStoredMetrics(q, env, states);
    }
    if FullRun(q) && env.retrieval.Retrieved? && env.repository.Resolved? {
      var v := EvidenceFor(q, env);
      RegisteredLiftsAnswer(env);
      EvidenceOfRun(q, env, states);
      FirstSteps(q, env, states);
      FinalFieldsOfDefaultRun(q, env, states);
      DeterioratedInStore(states[1], states[2], env.repository);
      EvidenceKept(states[4], states[7]);
      EvidenceFields(q, env);
      if PrimaryPair(v).Some? {
        HoldsInRun(q, env, states, PrimaryPair(v).value);
        SupportExactly(v, PrimaryPair(v).value, states[3], states[4], env.tools);
      } else {
        EvidenceMeansCompleted(states[7]);
        SupportNeedsPair(v);
      }
    }
  }

  lemma SupportNeedsPair(v: Evidence)
    ensures SupportsRollout(v) ==> PrimaryPair(v).Some?
  {
    hide PrimaryPair, PrimaryGrew, Concerns, SomeGuardrailWorsened;
  }

  lemma EvidenceMeansCompleted(s: AgentState)
    ensures RolloutEvidence(s) ==> s.analysis.status == AnalysisCompleted
  {
    hide SomeDeteriorated, DecisionAgent.PrimaryWorsened, DecisionAgent.LiftDirection, DecisionAgent.BusinessPositive;
  }

  /** Complete evidence that passes the registered validation is exactly evidence that supports a rollout. */
  lemma SupportExactly(v: Evidence, pair: Comparison, assessed: AgentState, s: AgentState, tools: DecisionAgent.ToolAnswers)
    requires Holds(v, pair, assessed) && ReadyToDecide(assessed, s) && s.citations == assessed.citations
    requires DecisionAgent.RegisteredValidation(tools)
    requires SomeDeteriorated(s.analysis) <==> SomeGuardrailWorsened(v.metrics, v.experiment.primaryMetric)
    ensures RolloutEvidence(s) && DecisionAgent.ValidationPasses(s, tools) <==> SupportsRollout(v)
  {
    assert PrimaryPair(v) == Some(pair);
    hide Holds, ReadyToDecide, RolloutEvidence, PrimaryGrew, Concerns, SomeDeteriorated, SomeGuardrailWorsened, PrimaryPair,
      DecisionAgent.ValidationPasses, DecisionAgent.RegisteredValidation;
    if RolloutEvidence(s) {
      ValidationOfEvidence(v, pair, assessed, s, tools);
    }
    if v.citations != [] {
      EvidenceSupports(v, pair, assessed, s);
    }
  }
}
