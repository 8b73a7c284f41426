/** Every recommendation of a full run, in terms of what is stored and what the services answered. */
module Recommendations {
  import opened Text
  import opened MetricStore
  import opened AgentStates
  import opened Workflow
  import opened WorkflowRuns
  import opened WorkflowOutcomes
  import opened RolloutConditions
  import opened Guardrail
  import AnalysisAgent = ExperimentAnalysisAgent
  import ImpactAgent = BusinessImpactAgent
  import RiskAgent = RiskAssessmentAgent
  import DecisionAgent

  // ---------------------------------------------------------------- the stored primary pair

  /** The lift that the stored pair shows: the stored one, or the computed relative one, or for a zero control the difference. */
  function StoredLift(control: Metric, treatment: Metric): real {
    if treatment.liftVsControl.Some? then treatment.liftVsControl.value
    else
      var change := treatment.value - control.value;
      AnalysisAgent.Round6(if control.value != 0.0 then change / control.value else change)
  }

  /** The lift that the registered tools compute from the values. */
  function ToolLift(control: Metric, treatment: Metric): real {
    var change := AnalysisAgent.Round6(treatment.value - control.value);
    if control.value != 0.0 then AnalysisAgent.Round6(change / control.value) else change
  }

  ghost predicate PairStored(env: Environment) {
    && env.repository.Resolved?
    && LastMatch(env.repository.metrics, env.repository.experiment.primaryMetric, "control").Some?
    && LastMatch(env.repository.metrics, env.repository.experiment.primaryMetric, "treatment").Some?
  }

  ghost function StoredControl(env: Environment): Metric
    requires PairStored(env)
  {
    LastMatch(env.repository.metrics, env.repository.experiment.primaryMetric, "control").value
  }

  ghost function StoredTreatment(env: Environment): Metric
    requires PairStored(env)
  {
    LastMatch(env.repository.metrics, env.repository.experiment.primaryMetric, "treatment").value
  }

  ghost predicate Worsened(env: Environment) {
    env.repository.Resolved? && SomeGuardrailWorsened(env.repository.metrics, env.repository.experiment.primaryMetric)
  }

  /** The primary metric fell, or its lift is negative. */
  ghost predicate Fell(env: Environment) {
    && PairStored(env)
    && (StoredTreatment(env).value < StoredControl(env).value || StoredLift(StoredControl(env), StoredTreatment(env)) < 0.0)
  }

  /** Both lifts are positive. */
  ghost predicate Grew(env: Environment) {
    && PairStored(env) && !Fell(env)
    && StoredLift(StoredControl(env), StoredTreatment(env)) > 0.0 && ToolLift(StoredControl(env), StoredTreatment(env)) > 0.0
  }

  lemma PairIsStored(env: Environment)
    ensures PairStored(env) <==>
              env.repository.Resolved?
              && AnalysisAgent.PairOf(env.repository.metrics, env.repository.experiment.primaryMetric).Some?
    ensures PairStored(env) ==>
              var pair := AnalysisAgent.PairOf(env.repository.metrics, env.repository.experiment.primaryMetric).value;
              && pair.controlValue == StoredControl(env).value && pair.treatmentValue == StoredTreatment(env).value
              && pair.pValue == StoredTreatment(env).pValue
              && AnalyzedLift(pair) == StoredLift(StoredControl(env), StoredTreatment(env))
              && ComputedLift(pair) == ToolLift(StoredControl(env), StoredTreatment(env))
  {
    hide LastMatch, AnalysisAgent.Round6;
  }

  // ---------------------------------------------------------------- what the decision finds

  /** Without the primary pair there is no direction and no guardrail. */
  lemma NoPairSignals(s: AgentState, t: AgentState, u: AgentState, answer: AnalysisAgent.RepositoryAnswer,
                      p: ImpactAgent.ImpactInputs)
    requires Analyzed(s, t, answer) && ImpactFollows(t, u, p) && u.analysis == t.analysis
    requires t.analysis.status != AnalysisCompleted
    ensures DecisionAgent.LiftDirection(u) == DecisionAgent.UnknownDirection && !DecisionAgent.PrimaryWorsened(u.analysis)
    ensures !SomeDeteriorated(u.analysis)
  {
    ValuesNeedThePair(s, t, answer);
    hide LastMatch, AnalysisAgent.Compare, AnalysisAgent.Guardrails, NamesOf, AnalysisAgent.MatchingCitations,
      AnalysisAgent.ExperimentId, AnalysisAgent.MissingPairNote, AnalysisAgent.NO_CITATIONS_NOTE,
      AnalysisAgent.AnalysisConfidence, ImpactAgent.Values, ImpactAgent.ZERO_BASELINE_NOTE,
      ImpactAgent.OBSERVED_ONLY_NOTE, ImpactAgent.NO_ESTIMATE_NOTE, ImpactAgent.NO_ANNUALIZED_NOTE;
  }

  /** What the decision node finds. */
  ghost predicate Finds(env: Environment, s: AgentState) {
    && (s.errors == [] <==> env.retrieval.Retrieved? && !env.repository.RepositoryRaised?)
    && (!PairStored(env) ==>
         && s.analysis.status != AnalysisCompleted && DecisionAgent.HarmfulIssues(s) == []
         && DecisionAgent.LiftDirection(s) == DecisionAgent.UnknownDirection && !DecisionAgent.PrimaryWorsened(s.analysis))
    && (PairStored(env) && env.retrieval.Retrieved? ==>
         && s.analysis.status == AnalysisCompleted && (DecisionAgent.HarmfulIssues(s) != [] <==> Worsened(env))
         && (DecisionAgent.LiftDirection(s) == DecisionAgent.NegativeDirection || DecisionAgent.PrimaryWorsened(s.analysis)
             <==> Fell(env))
         && (DecisionAgent.LiftDirection(s) == DecisionAgent.PositiveDirection
             <==> StoredLift(StoredControl(env), StoredTreatment(env)) > 0.0)
         && (DecisionAgent.BusinessPositive(s.impact) <==> ToolLift(StoredControl(env), StoredTreatment(env)) > 0.0))
  }

  lemma SignalsKept(s: AgentState, t: AgentState)
    requires s.analysis == t.analysis && s.impact == t.impact
    ensures DecisionAgent.LiftDirection(s) == DecisionAgent.LiftDirection(t)
    ensures DecisionAgent.PrimaryWorsened(s.analysis) == DecisionAgent.PrimaryWorsened(t.analysis)
    ensures DecisionAgent.BusinessPositive(s.impact) == DecisionAgent.BusinessPositive(t.impact)
    ensures SomeDeteriorated(s.analysis) <==> SomeDeteriorated(t.analysis)
  {
  }

  lemma ReadyFields(assessed: AgentState, s: AgentState)
    requires ReadyToDecide(assessed, s)
    ensures s.analysis == assessed.analysis && s.impact == assessed.impact && s.risk == RiskAgent.Assess(assessed)
  {
    hide RiskAgent.Assess;
  }

  /** With the stored pair: the signals are the stored ones. */
  lemma PairSignals(q: Query, env: Environment, states: seq<AgentState>)
    requires DefaultRun(q, env, states) && FullRun(q) && ImpactAgent.RegisteredLifts(env.impact.lifts)
    requires env.retrieval.Retrieved? && PairStored(env)
    ensures |states| == 8
    ensures DecisionAgent.LiftDirection(states[4]) == DecisionAgent.NegativeDirection || DecisionAgent.PrimaryWorsened(states[4].analysis)
       <==> Fell(env)
    ensures DecisionAgent.LiftDirection(states[4]) == DecisionAgent.PositiveDirection
       <==> StoredLift(StoredControl(env), StoredTreatment(env)) > 0.0
    ensures DecisionAgent.BusinessPositive(states[4].impact) <==> ToolLift(StoredControl(env), StoredTreatment(env)) > 0.0
  {
    PairIsStored(env);
    EvidenceFields(q, env);
    assert Fell(env) <==> StoredTreatment(env).value < StoredControl(env).value
                          || StoredLift(StoredControl(env), StoredTreatment(env)) < 0.0;
    hide *;
    var v := EvidenceFor(q, env);
    HoldsInRun(q, env, states, PrimaryPair(v).value);
    Signals(v, PrimaryPair(v).value, states[3]);
    EvidenceOfRun(q, env, states);
    ReadyFields(states[3], states[4]);
    SignalsKept(states[3], states[4]);
  }

  lemma FindsInRun(q: Query, env: Environment, states: seq<AgentState>)
    requires DefaultRun(q, env, states) && FullRun(q) && ImpactAgent.RegisteredLifts(env.impact.lifts)
    ensures |states| == 8 && Finds(env, states[4])
    ensures states[7].decision == DecisionAgent.Decide(states[4], env.tools)
  {
    PairIsStored(env);
    assert Worsened(env) <==> env.repository.Resolved?
                              && SomeGuardrailWorsened(env.repository.metrics, env.repository.experiment.primaryMetric);
    hide DefaultRun, SomeGuardrailWorsened, PairStored, Worsened, Fell, StoredLift, ToolLift, StoredControl, StoredTreatment,
      ReadyToDecide, Analyzed, ImpactFollows, AnalysisAgent.PairOf, SomeDeteriorated, LiftAnswered,
      ImpactAgent.RegisteredLifts, DecisionAgent.Decide, DecisionAgent.HarmfulIssues, DecisionAgent.LiftDirection,
      DecisionAgent.PrimaryWorsened, DecisionAgent.BusinessPositive, FullRun;
    DecisionOfRun(q, env, states);
    FullDecision(q, states[4], env.tools);
    RegisteredLiftsAnswer(env);
    EvidenceOfRun(q, env, states);
    FirstSteps(q, env, states);
    FinalFieldsOfDefaultRun(q, env, states);
    ReadyFields(states[3], states[4]);
    HarmfulExactly(states[3], states[4]);
    SignalsKept(states[3], states[4]);
    DeterioratedInStore(states[1], states[2], env.repository);
    if !PairStored(env) {
      NoPairSignals(states[1], states[2], states[3], env.repository, env.impact);
    } else if env.retrieval.Retrieved? {
      PairSignals(q, env, states);
    }
  }

  // ---------------------------------------------------------------- the recommendations

  lemma CompletedIsEnough(s: AgentState)
    requires s.analysis.status == AnalysisCompleted
    ensures !DecisionAgent.Insufficient(s)
  {
    hide DecisionAgent.AllCitations;
  }

  /**
   A full run advises against a rollout if and only if its services answered, the primary pair is stored, no other stored
   metric got worse, and the treatment is below the control or its stored or computed lift is negative. The decision is
   then made and awaits approval, whatever the validation tool says.
   */
  lemma DoNotRolloutExactly(q: Query, env: Environment, states: seq<AgentState>)
    requires DefaultRun(q, env, states) && FullRun(q) && ImpactAgent.RegisteredLifts(env.impact.lifts)
    ensures |states| == 8
    ensures var d := states[7].decision;
            && (d.recommendation == DoNotRollout <==> env.retrieval.Retrieved? && !Worsened(env) && Fell(env))
            && (d.recommendation == DoNotRollout ==> d.status == Decided && d.approvalRequired)
  {
    assert Fell(env) ==> PairStored(env);
    FindsInRun(q, env, states);
    DecideOutcomes(states[4], env.tools);
    hide DefaultRun, FullRun, ImpactAgent.RegisteredLifts, Fell, Worsened, PairStored, StoredLift, ToolLift, StoredControl,
      StoredTreatment, DecisionAgent.Decide, DecisionAgent.HarmfulIssues, DecisionAgent.LiftDirection,
      DecisionAgent.PrimaryWorsened, DecisionAgent.BusinessPositive, DecisionAgent.Insufficient,
      DecisionAgent.ValidationPasses, DecisionAgent.NeedsData;
    if PairStored(env) && env.retrieval.Retrieved? {
      CompletedIsEnough(states[4]);
    }
  }

  /** On evidence of growth, something is missing exactly if there is no p-value or no citation. */
  lemma IncompleteExactly(v: Evidence, pair: Comparison, assessed: AgentState, s: AgentState, tools: DecisionAgent.ToolAnswers)
    requires RolloutConditions.Holds(v, pair, assessed) && ReadyToDecide(assessed, s) && s.citations == assessed.citations
    requires DecisionAgent.RegisteredValidation(tools)
    ensures !DecisionAgent.ValidationPasses(s, tools) || DecisionAgent.NeedsData(s) <==> pair.pValue == None || v.citations == []
  {
    hide *;
    AnalysisFields(v, pair, assessed);
    Signals(v, pair, assessed);
    AssessedFields(assessed);
    RolloutConditions.NothingMatches(v.citations, v.experiment);
    ReadyFields(assessed, s);
    CitationsOfEvidence(v, pair, assessed, s);
    DecisionAgent.EmptyCitations(s);
    PassesExactly(s, tools);
    CitedRisk(v, pair, assessed);
    NeedsExactly(s);
  }

  /** What the decision still needs once the impact is estimated. */
  lemma NeedsExactly(s: AgentState)
    requires s.analysis.status == AnalysisCompleted && s.impact.status == Estimated
    ensures DecisionAgent.NeedsData(s) <==>
              s.risk.status in {PartialAssessment, RiskInsufficient} || s.risk.level == UnknownRisk || s.analysis.significance == None
  {
  }

  /** With a citation the risk is assessed. */
  lemma CitedRisk(v: Evidence, pair: Comparison, s: AgentState)
    requires RolloutConditions.Holds(v, pair, s)
    ensures v.citations != [] ==> RiskAgent.Assess(s).status == Assessed && RiskAgent.Assess(s).level != UnknownRisk
  {
    hide *;
    HasContextWhenCited(v, pair, s);
    Signals(v, pair, s);
    StatusOfEstimate(s);
    RiskAgent.LevelExactly(s);
    LevelForIsKnown(RiskAgent.Assess(s).factors);
  }

  lemma LevelForIsKnown(factors: seq<RiskFactor>)
    ensures RiskAgent.LevelFor(factors) != UnknownRisk
  {
  }

  lemma HasContextWhenCited(v: Evidence, pair: Comparison, s: AgentState)
    requires RolloutConditions.Holds(v, pair, s)
    ensures v.citations != [] ==> RiskAgent.HasContext(s)
  {
    hide AnalysisAgent.AnalysisOf, AnalysisAgent.MatchingCitations, EstimateFor, PrimaryPair;
  }

  lemma StatusOfEstimate(s: AgentState)
    ensures RiskAgent.HasContext(s) && s.analysis.status == AnalysisCompleted && s.impact.status == Estimated
        ==> RiskAgent.Assess(s).status == Assessed
  {
    hide RiskAgent.Factors, RiskAgent.ScoreOf, FirstOccurrences, RiskAgent.CategoryDetails, RiskAgent.Citations,
      RiskAgent.Limitations, RiskAgent.HasContext, RiskAgent.ConfidenceOf, RiskAgent.NO_CONTEXT_NOTE;
  }

  lemma IncompleteInRun(q: Query, env: Environment, states: seq<AgentState>)
    requires DefaultRun(q, env, states) && FullRun(q) && ImpactAgent.RegisteredLifts(env.impact.lifts)
    requires DecisionAgent.RegisteredValidation(env.tools) && env.retrieval.Retrieved? && PairStored(env)
    ensures |states| == 8
    ensures !DecisionAgent.ValidationPasses(states[4], env.tools) || DecisionAgent.NeedsData(states[4])
       <==> StoredTreatment(env).pValue == None || env.retrieval.citations == []
  {
    PairIsStored(env);
    EvidenceFields(q, env);
    hide *;
    var v := EvidenceFor(q, env);
    HoldsInRun(q, env, states, PrimaryPair(v).value);
    EvidenceOfRun(q, env, states);
    IncompleteExactly(v, PrimaryPair(v).value, states[3], states[4], env.tools);
  }

  /** A run that says to continue: both lifts are positive and nothing got worse, but a p-value or every citation is missing. */
  ghost predicate Unfinished(env: Environment) {
    && env.retrieval.Retrieved? && !Worsened(env) && Grew(env)
    && (StoredTreatment(env).pValue == None || env.retrieval.citations == [])
  }

  /** With the registered tools a full run says to continue the experiment if and only if the evidence is positive but unfinished. */
  lemma ContinueExactly(q: Query, env: Environment, states: seq<AgentState>)
    requires DefaultRun(q, env, states) && FullRun(q) && ImpactAgent.RegisteredLifts(env.impact.lifts)
    requires DecisionAgent.RegisteredValidation(env.tools)
    ensures |states| == 8
    ensures states[7].decision.recommendation == ContinueExperiment <==> Unfinished(env)
  {
    assert Fell(env) ==> PairStored(env);
    assert Grew(env) ==> PairStored(env);
    assert PairStored(env) ==> (Grew(env) <==>
      !Fell(env) && StoredLift(StoredControl(env), StoredTreatment(env)) > 0.0
      && ToolLift(StoredControl(env), StoredTreatment(env)) > 0.0);
    FindsInRun(q, env, states);
    DecideOutcomes(states[4], env.tools);
    hide DefaultRun, FullRun, ImpactAgent.RegisteredLifts, Fell, Grew, Worsened, PairStored, StoredLift, ToolLift, StoredControl,
      StoredTreatment, DecisionAgent.Decide, DecisionAgent.HarmfulIssues, DecisionAgent.LiftDirection,
      DecisionAgent.PrimaryWorsened, DecisionAgent.BusinessPositive, DecisionAgent.Insufficient,
      DecisionAgent.ValidationPasses, DecisionAgent.NeedsData, DecisionAgent.RegisteredValidation;
    if PairStored(env) && env.retrieval.Retrieved? {
      CompletedIsEnough(states[4]);
      IncompleteInRun(q, env, states);
    }
  }

  /**
   All recommendations of a full run with the registered tools. The last, more data, is what the other four leave. A
   decision is made, and an approval required, exactly for the three strong ones; the run is blocked exactly if retrieval
   or the repository failed; and only a made decision has the confidence tool's answer.
   */
  lemma RecommendationsExactly(q: Query, env: Environment, states: seq<AgentState>)
    requires DefaultRun(q, env, states) && FullRun(q)
    requires ImpactAgent.RegisteredLifts(env.impact.lifts) && DecisionAgent.RegisteredValidation(env.tools)
    ensures |states| == 8
    ensures var d := states[7].decision;
            && (d.recommendation == Rollback <==> env.retrieval.Retrieved? && PairStored(env) && Worsened(env))
            && (d.recommendation == DoNotRollout <==> env.retrieval.Retrieved? && !Worsened(env) && Fell(env))
            && (d.recommendation == ContinueExperiment <==> Unfinished(env))
            && (d.recommendation == Rollout <==>
                 env.retrieval.Retrieved? && env.repository.Resolved? && SupportsRollout(EvidenceFor(q, env)))
            && d.recommendation in {Rollback, DoNotRollout, ContinueExperiment, Rollout, NeedsMoreData}
            && (d.status == Decided <==> d.recommendation in {Rollback, DoNotRollout, Rollout})
            && (d.approvalRequired <==> d.status == Decided)
            && (d.status == Blocked <==> env.retrieval.RetrievalRaised? || env.repository.RepositoryRaised?)
            && (d.status == Decided ==> d.confidence == if env.tools.confidence.Some? then env.tools.confidence.value else Low)
            && (d.status != Decided ==> d.confidence in {Low, UnknownConfidence})
  {
    PairIsStored(env);
    assert Worsened(env) ==> env.repository.Resolved?;
    assert env.repository.Resolved? ==>
      (Worsened(env) <==> SomeGuardrailWorsened(env.repository.metrics, env.repository.experiment.primaryMetric));
    hide *;
    StatusInRun(q, env, states);
    RollbackWithRegisteredTools(q, env, states);
    DoNotRolloutExactly(q, env, states);
    ContinueExactly(q, env, states);
    RolloutWithRegisteredToolsExactly(q, env, states);
  }

  lemma StatusInRun(q: Query, env: Environment, states: seq<AgentState>)
    requires DefaultRun(q, env, states) && FullRun(q) && ImpactAgent.RegisteredLifts(env.impact.lifts)
    ensures |states| == 8
    ensures var d := states[7].decision;
            && d.recommendation in {Rollback, DoNotRollout, ContinueExperiment, Rollout, NeedsMoreData}
            && (d.status == Decided <==> d.recommendation in {Rollback, DoNotRollout, Rollout})
            && (d.approvalRequired <==> d.status == Decided)
            && (d.status == Blocked <==> env.retrieval.RetrievalRaised? || env.repository.RepositoryRaised?)
            && (d.status == Decided ==> d.confidence == if env.tools.confidence.Some? then env.tools.confidence.value else Low)
            && (d.status != Decided ==> d.confidence in {Low, UnknownConfidence})
  {
    FindsInRun(q, env, states);
    assert states[4].errors == [] <==> env.retrieval.Retrieved? && !env.repository.RepositoryRaised?;
    hide *;
    DecideOutcomes(states[4], env.tools);
  }
}
