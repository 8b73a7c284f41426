/** The risk level of a full run, in terms of what is stored and what the services answered. */
module RiskLevels {
  import opened Text
  import opened Counting
  import opened MetricStore
  import opened AgentStates
  import opened Workflow
  import opened WorkflowRuns
  import opened WorkflowOutcomes
  import opened RolloutConditions
  import opened Recommendations
  import opened Guardrail
  import AnalysisAgent = ExperimentAnalysisAgent
  import ImpactAgent = BusinessImpactAgent
  import RiskAgent = RiskAssessmentAgent

  // ---------------------------------------------------------------- worsened metrics

  /** The other stored metrics that got worse. */
  function WorsenedNames(metrics: seq<Metric>, names: seq<string>, primary: string): set<string> {
    set name | name in names && name != primary && StoredWorse(metrics, name)
  }

  lemma {:induction false} NamesAreDistinct(metrics: seq<Metric>)
    ensures Distinct(NamesOf(metrics))
  {
    if metrics != [] {
      NamesAreDistinct(metrics[..|metrics| - 1]);
    }
  }

  /** Each of them is one guardrail factor. */
  lemma {:induction false} OneFactorEach(metrics: seq<Metric>, names: seq<string>, primary: string)
    requires Distinct(names)
    ensures |RiskAgent.GuardrailFactors(AnalysisAgent.Guardrails(metrics, names, primary))|
         == |WorsenedNames(metrics, names, primary)|
  {
    hide StoredWorse, Deteriorated, AnalysisAgent.PairOf;
    if names != [] {
      var n := |names| - 1;
      OneFactorEach(metrics, names[..n], primary);
      OneMoreName(metrics, names[..n], names[n], primary);
      assert names == names[..n] + [names[n]];
      OneMoreFactor(metrics, names[..n], names[n], primary);
    }
  }

  lemma OneMoreName(metrics: seq<Metric>, before: seq<string>, name: string, primary: string)
    requires name !in before
    ensures |WorsenedNames(metrics, before + [name], primary)|
         == |WorsenedNames(metrics, before, primary)| + One(name != primary && StoredWorse(metrics, name))
  {
    hide StoredWorse;
    assert WorsenedNames(metrics, before + [name], primary)
        == WorsenedNames(metrics, before, primary) + if name != primary && StoredWorse(metrics, name) then {name} else {};
  }

  lemma OneMoreFactor(metrics: seq<Metric>, before: seq<string>, name: string, primary: string)
    ensures |RiskAgent.GuardrailFactors(AnalysisAgent.Guardrails(metrics, before + [name], primary))|
         == |RiskAgent.GuardrailFactors(AnalysisAgent.Guardrails(metrics, before, primary))|
            + One(name != primary && StoredWorse(metrics, name))
  {
    StoredWorseIsDeteriorated(metrics, name);
    hide StoredWorse, Deteriorated, AnalysisAgent.PairOf;
    assert (before + [name])[..|before|] == before;
    var found := AnalysisAgent.Guardrails(metrics, before, primary);
    if name != primary && AnalysisAgent.PairOf(metrics, name).Some? {
      assert (found + [AnalysisAgent.PairOf(metrics, name).value])[..|found|] == found;
    } else {
      assert found + [] == found;
    }
  }

  // ---------------------------------------------------------------- counting all factors

  /** No other metric is stored for both variants. */
  ghost predicate Alone(v: Evidence) {
    forall name :: name in NamesOf(v.metrics) && name != v.experiment.primaryMetric ==> AnalysisAgent.PairOf(v.metrics, name) == None
  }

  /**
   The concerns about stored evidence: no identifier; no p-value, which without any other stored pair also leaves low
   confidence; each other metric that got worse; missing citations or chunks; each distinct note that mentions a
   data-quality term; and a constraint on the rollout.
   */
  ghost function AllConcerns(v: Evidence, pair: Comparison): nat {
    One(AnalysisAgent.ExperimentId(v.experiment) == "" && !v.named)
    + One(pair.pValue == None) + One(pair.pValue == None && Alone(v))
    + |WorsenedNames(v.metrics, NamesOf(v.metrics), v.experiment.primaryMetric)|
    + EvidenceConcerns(v, pair)
  }

  function EvidenceConcerns(v: Evidence, pair: Comparison): nat {
    One(v.citations == [] || v.chunks == [])
    + |FirstOccurrences(RiskAgent.MentionsQuality(NotedLimitations(v, pair)))|
    + One(ContainsAny(Lower(v.experiment.businessDecision), RiskAgent.ROLLOUT_TERMS))
  }

  ghost predicate AllMedium(factors: seq<RiskFactor>) { forall f :: f in factors ==> f.severity == MediumSeverity }
  ghost predicate SomeHigh(factors: seq<RiskFactor>) { exists f :: f in factors && f.severity == HighSeverity }

  lemma GuardrailsOf(v: Evidence, pair: Comparison, s: AgentState)
    requires RolloutConditions.Holds(v, pair, s)
    ensures s.analysis.guardrails == AnalysisAgent.Guardrails(v.metrics, NamesOf(v.metrics), v.experiment.primaryMetric)
    ensures s.analysis.guardrails == [] <==> Alone(v)
    ensures s.analysis.confidence == Low <==> pair.pValue == None && s.analysis.guardrails == []
    ensures s.analysis.confidence in {High, Medium, Low} && s.impact.confidence == s.analysis.confidence
  {
    hide AnalysisAgent.PairOf, AnalysisAgent.MatchingCitations, NamesOf, AnalysisAgent.ExperimentId,
      AnalysisAgent.NO_CITATIONS_NOTE, AnalysisAgent.Guardrails;
    NoGuardrailsExactly(v.metrics, NamesOf(v.metrics), v.experiment.primaryMetric);
  }

  lemma {:induction false} NoGuardrailsExactly(metrics: seq<Metric>, names: seq<string>, primary: string)
    ensures AnalysisAgent.Guardrails(metrics, names, primary) == [] <==>
              forall name :: name in names && name != primary ==> AnalysisAgent.PairOf(metrics, name) == None
  {
    hide AnalysisAgent.PairOf;
    if names != [] {
      var n := |names| - 1;
      NoGuardrailsExactly(metrics, names[..n], primary);
      assert names == names[..n] + [names[n]];
    }
  }

  /** The statistical group and the lift group. */
  lemma PairFactors(v: Evidence, pair: Comparison, s: AgentState)
    requires RolloutConditions.Holds(v, pair, s)
    ensures v.experiment.primaryMetric == "" ==> SomeHigh(RiskAgent.StatisticalFactors(s))
    ensures AnalyzedLift(pair) < 0.0 ==> SomeHigh(RiskAgent.LiftFactors(s))
    ensures AnalyzedLift(pair) >= 0.0 ==> RiskAgent.LiftFactors(s) == []
    ensures v.experiment.primaryMetric != "" ==>
              && AllMedium(RiskAgent.StatisticalFactors(s))
              && |RiskAgent.StatisticalFactors(s)| == One(pair.pValue == None) + One(pair.pValue == None && Alone(v))
  {
    AnalysisFields(v, pair, s);
    Signals(v, pair, s);
    GuardrailsOf(v, pair, s);
    hide RolloutConditions.Holds, Alone, RiskAgent.LiftSignalOf, RiskAgent.Describe, AnalysisAgent.ExperimentId,
      AnalysisAgent.MatchingCitations;
    if v.experiment.primaryMetric == "" {
      assert RiskAgent.StatisticalFactors(s)[0].severity == HighSeverity;
      assert RiskAgent.StatisticalFactors(s)[0] in RiskAgent.StatisticalFactors(s);
    }
    if AnalyzedLift(pair) < 0.0 {
      assert RiskAgent.LiftFactors(s)[0].severity == HighSeverity;
      assert RiskAgent.LiftFactors(s)[0] in RiskAgent.LiftFactors(s);
    }
  }

  lemma LateMediums(v: Evidence, pair: Comparison, s: AgentState)
    requires RolloutConditions.Holds(v, pair, s)
    ensures AllMedium(RiskAgent.FactorsAfter(s)) && |RiskAgent.FactorsAfter(s)| == EvidenceConcerns(v, pair)
  {
    var notes := RiskAgent.QualityNotes(s, RiskAgent.Limitations(s));
    var evidence, rollout := RiskAgent.EvidenceFactors(s, RiskAgent.Citations(s)), RiskAgent.RolloutFactors(s);
    var quality := RiskAgent.QualityFactors(notes);
    LateGroups(s);
    LateFactors(v, pair, s);
    QualityFactorCount(notes);
    QualityNoteCount(v, pair, s);
    hide RolloutConditions.Holds, RiskAgent.FactorsAfter, RiskAgent.EvidenceFactors, RiskAgent.RolloutFactors,
      RiskAgent.QualityFactors, RiskAgent.QualityNotes, FirstOccurrences, RiskAgent.MentionsQuality, NotedLimitations,
      ContainsAny, Lower, RiskAgent.ROLLOUT_TERMS, RiskAgent.Limitations, RiskAgent.Citations;
  }

  lemma GuardrailMediums(v: Evidence, pair: Comparison, s: AgentState)
    requires RolloutConditions.Holds(v, pair, s)
    ensures var guards := RiskAgent.GuardrailFactors(s.analysis.guardrails);
            AllMedium(guards) && |guards| == |WorsenedNames(v.metrics, NamesOf(v.metrics), v.experiment.primaryMetric)|
  {
    GuardrailsOf(v, pair, s);
    NamesAreDistinct(v.metrics);
    hide RolloutConditions.Holds, RiskAgent.GuardrailFactors, AnalysisAgent.Guardrails, NamesOf, WorsenedNames, Alone, Distinct;
    OneFactorEach(v.metrics, NamesOf(v.metrics), v.experiment.primaryMetric);
    RiskAgent.GuardrailFactorsMeaning(s.analysis.guardrails);
  }

  lemma AllGroups(s: AgentState)
    ensures RiskAgent.Factors(s) == RiskAgent.IdentifierFactors(s) + RiskAgent.StatisticalFactors(s) + RiskAgent.LiftFactors(s)
              + RiskAgent.GuardrailFactors(s.analysis.guardrails) + RiskAgent.FactorsAfter(s)
  {
    hide RiskAgent.IdentifierFactors, RiskAgent.StatisticalFactors, RiskAgent.LiftFactors, RiskAgent.GuardrailFactors,
      RiskAgent.FactorsAfter;
  }

  lemma JoinFive(a: seq<RiskFactor>, b: seq<RiskFactor>, c: seq<RiskFactor>, d: seq<RiskFactor>, e: seq<RiskFactor>)
    ensures SomeHigh(b) || SomeHigh(c) ==> SomeHigh(a + b + c + d + e)
    ensures AllMedium(a) && AllMedium(b) && AllMedium(c) && AllMedium(d) && AllMedium(e) ==> AllMedium(a + b + c + d + e)
  {
    if f :| (f in b || f in c) && f.severity == HighSeverity {
      assert f in a + b + c + d + e;
    }
  }

  /** The factors of stored evidence: with a named primary metric that did not fall they number its concerns, all medium. */
  lemma FactorsOfEvidence(v: Evidence, pair: Comparison, s: AgentState)
    requires RolloutConditions.Holds(v, pair, s)
    ensures if v.experiment.primaryMetric == "" || AnalyzedLift(pair) < 0.0 then SomeHigh(RiskAgent.Factors(s))
            else AllMedium(RiskAgent.Factors(s)) && |RiskAgent.Factors(s)| == AllConcerns(v, pair)
  {
    assert AllConcerns(v, pair) == One(AnalysisAgent.ExperimentId(v.experiment) == "" && !v.named)
      + One(pair.pValue == None) + One(pair.pValue == None && Alone(v))
      + |WorsenedNames(v.metrics, NamesOf(v.metrics), v.experiment.primaryMetric)| + EvidenceConcerns(v, pair);
    IdentifierCount(v, pair, s);
    assert AllMedium(RiskAgent.IdentifierFactors(s)) && AllMedium([]);
    hide *;
    PairFactors(v, pair, s);
    GuardrailMediums(v, pair, s);
    LateMediums(v, pair, s);
    AllGroups(s);
    JoinFive(RiskAgent.IdentifierFactors(s), RiskAgent.StatisticalFactors(s), RiskAgent.LiftFactors(s),
             RiskAgent.GuardrailFactors(s.analysis.guardrails), RiskAgent.FactorsAfter(s));
  }

  lemma LevelOfGroups(factors: seq<RiskFactor>)
    ensures SomeHigh(factors) ==> RiskAgent.LevelFor(factors) == HighRisk
    ensures AllMedium(factors) ==>
              RiskAgent.LevelFor(factors) == if |factors| == 0 then LowRisk else if |factors| == 1 then MediumRisk else HighRisk
  {
    if |factors| == 1 {
      assert factors[0] in factors && factors == [factors[0]];
    }
  }

  lemma NamedHasContext(s: AgentState)
    ensures s.analysis.primaryMetric != "" ==> RiskAgent.HasContext(s)
  {
  }

  /** The level that stored evidence amounts to. */
  ghost function LevelOfEvidence(v: Evidence, pair: Comparison): RiskLevel {
    if AnalyzedLift(pair) < 0.0 || AllConcerns(v, pair) >= 2 then HighRisk
    else if AllConcerns(v, pair) == 1 then MediumRisk else LowRisk
  }

  lemma LevelFromEvidence(v: Evidence, pair: Comparison, s: AgentState)
    requires RolloutConditions.Holds(v, pair, s)
    ensures var level := RiskAgent.Assess(s).level;
            if v.experiment.primaryMetric != "" then level == LevelOfEvidence(v, pair) else level in {HighRisk, UnknownRisk}
  {
    assert LevelOfEvidence(v, pair) == if AnalyzedLift(pair) < 0.0 || AllConcerns(v, pair) >= 2 then HighRisk
      else if AllConcerns(v, pair) == 1 then MediumRisk else LowRisk;
    AnalysisFields(v, pair, s);
    hide *;
    FactorsOfEvidence(v, pair, s);
    RiskAgent.LevelExactly(s);
    LevelOfGroups(RiskAgent.Factors(s));
    NamedHasContext(s);
  }

  // ---------------------------------------------------------------- runs

  /**
   A full run that retrieved and found its primary pair reports, for a named primary metric, low risk if and only if the
   lift is not negative and there is no concern, medium risk if there is exactly one, and high risk otherwise.
   */
  lemma RiskLevelExactly(q: Query, env: Environment, states: seq<AgentState>)
    requires DefaultRun(q, env, states) && FullRun(q) && ImpactAgent.RegisteredLifts(env.impact.lifts)
    requires env.retrieval.Retrieved? && PairStored(env)
    ensures |states| == 8 && PrimaryPair(EvidenceFor(q, env)).Some?
    ensures var v, level := EvidenceFor(q, env), states[7].risk.level;
            if v.experiment.primaryMetric != "" then level == LevelOfEvidence(v, PrimaryPair(v).value)
            else level in {HighRisk, UnknownRisk}
  {
    PairIsStored(env);
    EvidenceFields(q, env);
    hide *;
    var v := EvidenceFor(q, env);
    HoldsInRun(q, env, states, PrimaryPair(v).value);
    EvidenceOfRun(q, env, states);
    ReadyFields(states[3], states[4]);
    FinalFieldsOfDefaultRun(q, env, states);
    LevelFromEvidence(v, PrimaryPair(v).value, states[3]);
  }

  lemma NoValuesNoLevel(s: AgentState)
    requires s.analysis.control == None
    ensures RiskAgent.Assess(s).level in {HighRisk, UnknownRisk}
  {
    assert SomeHigh(RiskAgent.StatisticalFactors(s)) by {
      var missing := RiskFactor(MissingValues, HighSeverity, StatisticalRisk, RiskAgent.Describe(MissingValues));
      assert missing in RiskAgent.When(s.analysis.control == None || s.analysis.treatment == None, MissingValues, HighSeverity,
                                       StatisticalRisk);
      hide RiskAgent.LowConfidence, RiskAgent.Describe;
      assert missing in RiskAgent.StatisticalFactors(s);
    }
    hide *;
    RiskAgent.LevelExactly(s);
    AllGroups(s);
    JoinFive(RiskAgent.IdentifierFactors(s), RiskAgent.StatisticalFactors(s), RiskAgent.LiftFactors(s),
             RiskAgent.GuardrailFactors(s.analysis.guardrails), RiskAgent.FactorsAfter(s));
    LevelOfGroups(RiskAgent.Factors(s));
  }

  lemma NoControl(s: AgentState, t: AgentState, answer: AnalysisAgent.RepositoryAnswer)
    requires Analyzed(s, t, answer) && t.analysis.status != AnalysisCompleted
    ensures t.analysis.control == None
  {
    hide AnalysisAgent.PairOf, AnalysisAgent.Guardrails, NamesOf, AnalysisAgent.MatchingCitations,
      AnalysisAgent.ExperimentId, AnalysisAgent.MissingPairNote, AnalysisAgent.NO_CITATIONS_NOTE,
      AnalysisAgent.AnalysisConfidence;
  }

  /** Without a stored primary pair no full run reports a low or a medium risk. */
  lemma NoPairIsRisky(q: Query, env: Environment, states: seq<AgentState>)
    requires DefaultRun(q, env, states) && FullRun(q) && !PairStored(env)
    ensures |states| == 8 && states[7].risk.level in {HighRisk, UnknownRisk}
  {
    PairIsStored(env);
    hide *;
    EvidenceOfRun(q, env, states);
    ReadyFields(states[3], states[4]);
    FirstSteps(q, env, states);
    FinalFieldsOfDefaultRun(q, env, states);
    NoControl(states[1], states[2], env.repository);
    NoValuesNoLevel(states[3]);
  }
}
