/** From an ingested experiment directory to the workflow's recommendation. */
module EndToEnd {
  import opened Text
  import opened MetricStore
  import opened ExperimentInputs
  import opened Database
  import opened AgentStates
  import opened Workflow
  import opened WorkflowOutcomes
  import AnalysisAgent = ExperimentAnalysisAgent
  import opened BusinessImpactAgent
  import DecisionAgent
  import opened Guardrail
  import RolloutConditions

  /** `_to_experiment_record`: what the analysis agent takes from the experiment row, whose id has this text. */
  function RecordOf(databaseId: string, row: ExperimentRow): AnalysisAgent.Experiment {
    AnalysisAgent.Experiment(
      databaseId, row.config.experimentId, row.config.primaryMetric, row.config.imperfections, row.config.businessDecision)
  }

  /** An experiment that holds an accepted input. */
  ghost predicate Holds(t: Tables, e: nat, input: ExperimentInput) {
    e in t.experiments && ContentsOf(t, e) == Expected(input) && DistinctStorageNames(input.metrics)
  }

  /** The repository answers with the stored experiment and its metric rows, in whatever order. */
  ghost predicate AnswersFrom(env: Environment, t: Tables, e: nat, databaseId: string) {
    && e in t.experiments && env.repository.Resolved? && env.repository.experiment == RecordOf(databaseId, t.experiments[e])
    && exists rows :: env.repository.metrics == LoadRows(rows) && forall row :: row in rows <==> row in MetricsOf(t.metrics, e)
  }

  /** Every lookup of a variant without a colon is answered as by the ingested list, if the name has no colon, and else never. */
  ghost predicate AnswersLookups(metrics: seq<Metric>, input: ExperimentInput) {
    forall name, variant :: ColonFree(variant) ==>
      LastMatch(metrics, name, variant) == if ColonFree(name) then LastMatch(input.metrics, name, variant) else None
  }

  /** What the workflow sees of an ingested input: its metadata, and its metrics as far as their names have no colon. */
  lemma LoadedAnswersAsIngested(env: Environment, t: Tables, e: nat, databaseId: string, input: ExperimentInput)
    requires Holds(t, e, input) && AnswersFrom(env, t, e, databaseId)
    ensures env.repository.experiment == RecordOf(databaseId, ExperimentOf(input.metadata))
    ensures env.repository.experiment.primaryMetric == input.metadata.primaryMetric
    ensures AnswersLookups(env.repository.metrics, input)
  {
    var rows :| env.repository.metrics == LoadRows(rows) && forall row :: row in rows <==> row in MetricsOf(t.metrics, e);
    hide MetricsOf, DocumentsOf, ChunksOf, Stored, DocumentOf, ChunkSet, ReportChunkData, DistinctStorageNames, LoadRows,
      ColonFree, RowsFor, LastMatch;
    RowsOfIngested(t, e, input, rows);
    forall name, variant | ColonFree(variant)
      ensures LastMatch(LoadRows(rows), name, variant)
           == if ColonFree(name) then LastMatch(input.metrics, name, variant) else None
    {
      LoadedAnswers(input.metrics, rows, name, variant);
    }
  }

  /** The pair of a metric is stored for both variants. */
  predicate HasPair(metrics: seq<Metric>, name: string) {
    LastMatch(metrics, name, "control").Some? && LastMatch(metrics, name, "treatment").Some?
  }

  lemma PairExactly(metrics: seq<Metric>, name: string)
    ensures HasPair(metrics, name) <==> AnalysisAgent.PairOf(metrics, name).Some?
  {
    hide LastMatch, AnalysisAgent.Compare;
  }

  /** Some ingested metric other than the primary one got worse, and its name has no colon. */
  ghost predicate SomeReadableWorsened(input: ExperimentInput) {
    exists name :: name != input.metadata.primaryMetric && ColonFree(name) && StoredWorse(input.metrics, name)
  }

  lemma SameFindings(metrics: seq<Metric>, input: ExperimentInput)
    requires AnswersLookups(metrics, input)
    ensures var primary := input.metadata.primaryMetric;
            && (HasPair(metrics, primary) <==> ColonFree(primary) && HasPair(input.metrics, primary))
            && (SomeGuardrailWorsened(metrics, primary) <==> SomeReadableWorsened(input))
            && (PrimaryImprovedOrEqual(metrics, primary) <==>
                ColonFree(primary) && PrimaryImprovedOrEqual(input.metrics, primary))
            && AnalysisAgent.PairOf(metrics, primary)
               == if ColonFree(primary) then AnalysisAgent.PairOf(input.metrics, primary) else None
  {
    var primary := input.metadata.primaryMetric;
    assert ColonFree("control") && ColonFree("treatment");
    hide LastMatch, Worse, ColonFree, AnalysisAgent.Compare;
    forall name ensures StoredWorse(metrics, name) <==> ColonFree(name) && StoredWorse(input.metrics, name) {
      assert LastMatch(metrics, name, "treatment")
          == if ColonFree(name) then LastMatch(input.metrics, name, "treatment") else None;
    }
    hide StoredWorse;
  }

  /**
   With the registered lift tools, a deciding question about an ingested experiment is answered with a rollback if and
   only if retrieval worked, the directory has the primary pair under a colon-free name, and some other such metric got worse.
   */
  lemma RollbackFromIngestedMetrics(q: Query, env: Environment, states: seq<AgentState>, t: Tables, e: nat,
                                    databaseId: string, input: ExperimentInput)
    requires DefaultRun(q, env, states) && FullRun(q) && |states| == 8 && RegisteredLifts(env.impact.lifts)
    requires Holds(t, e, input) && AnswersFrom(env, t, e, databaseId)
    ensures states[7].decision.recommendation == Rollback <==>
              && env.retrieval.Retrieved? && ColonFree(input.metadata.primaryMetric)
              && HasPair(input.metrics, input.metadata.primaryMetric) && SomeReadableWorsened(input)
  {
    assert env.repository.Resolved?;
    hide *;
    RollbackWithRegisteredTools(q, env, states);
    LoadedAnswersAsIngested(env, t, e, databaseId, input);
    PairExactly(env.repository.metrics, input.metadata.primaryMetric);
    SameFindings(env.repository.metrics, input);
  }

  const SLOWER: seq<Metric> := [
    Metric("conversion", "control", 1.0, None, None), Metric("conversion", "treatment", 2.0, None, None),
    Metric("p95:load", "control", 1.0, None, None), Metric("p95:load", "treatment", 2.0, None, None)]

  /** Without colons in names every worsened metric counts; with one, a directory is accepted whose worsened metric does not. */
  lemma ColonHidesWorsening(input: ExperimentInput)
    ensures (forall m :: m in input.metrics ==> ColonFree(m.metricName)) ==>
              (SomeReadableWorsened(input) <==> SomeGuardrailWorsened(input.metrics, input.metadata.primaryMetric))
    ensures input.metrics == SLOWER && input.metadata.primaryMetric == "conversion" ==>
              && DistinctStorageNames(input.metrics) && HasPair(input.metrics, "conversion")
              && SomeGuardrailWorsened(input.metrics, "conversion") && !SomeReadableWorsened(input)
  {
    hide ColonFree, Worse, DistinctStorageNames;
    forall name | StoredWorse(input.metrics, name) ensures exists m :: m in input.metrics && m.metricName == name {
      LastMatchSound(input.metrics, name, "control");
    }
    SlowerLookups();
    SlowerIsWorse();
    SlowerIsAccepted();
    hide LastMatch, SLOWER;
    if input.metrics == SLOWER && input.metadata.primaryMetric == "conversion" {
      assert StoredWorse(input.metrics, "p95:load");
      forall name | name != "conversion" && ColonFree(name) ensures !StoredWorse(input.metrics, name) {
        SlowerNames(name);
      }
    }
  }

  lemma SlowerLookups()
    ensures LastMatch(SLOWER, "conversion", "control") == Some(SLOWER[0])
    ensures LastMatch(SLOWER, "conversion", "treatment") == Some(SLOWER[1])
    ensures LastMatch(SLOWER, "p95:load", "control") == Some(SLOWER[2])
    ensures LastMatch(SLOWER, "p95:load", "treatment") == Some(SLOWER[3])
  {
    assert SLOWER[..2][..1] == SLOWER[..1] && SLOWER[..3][..2] == SLOWER[..2];
    assert LastMatch(SLOWER[..1], "conversion", "control") == Some(SLOWER[0]);
    assert LastMatch(SLOWER[..2], "conversion", "control") == Some(SLOWER[0]);
    assert LastMatch(SLOWER[..3], "conversion", "control") == Some(SLOWER[0]);
  }

  lemma SlowerIsWorse()
    ensures Worse("p95:load", 1.0, 2.0)
  {
    assert Lower("p95:load") == "p95:load";
    assert OccursAt("p95:load", "p95", 0);
    assert NEGATIVE_TERMS[10] == "p95";
  }

  lemma SlowerIsAccepted()
    ensures DistinctStorageNames(SLOWER)
  {
    assert StorageName("conversion", "control") == "conversion:control";
    assert StorageName("conversion", "treatment") == "conversion:treatment";
    assert StorageName("p95:load", "control") == "p95:load:control";
    assert StorageName("p95:load", "treatment") == "p95:load:treatment";
  }

  lemma SlowerNames(name: string)
    requires name != "conversion" && ColonFree(name)
    ensures LastMatch(SLOWER, name, "control") == None
  {
    assert "p95:load"[3] == ':';
    LastMatchSound(SLOWER, name, "control");
    hide LastMatch;
  }

  /** And it is answered with a rollout only if the ingested primary metric did not fall and no other readable metric got worse. */
  lemma RolloutFromIngestedMetrics(q: Query, env: Environment, states: seq<AgentState>, t: Tables, e: nat,
                                   databaseId: string, input: ExperimentInput)
    requires DefaultRun(q, env, states) && |states| == 8 && states[7].decision.recommendation == Rollout
    requires Holds(t, e, input) && (env.repository.Resolved? ==> AnswersFrom(env, t, e, databaseId))
    ensures env.repository.Resolved? && ColonFree(input.metadata.primaryMetric)
    ensures PrimaryImprovedOrEqual(input.metrics, input.metadata.primaryMetric) && !SomeReadableWorsened(input)
  {
    hide *;
    RolloutFromStoredMetrics(q, env, states);
    LoadedAnswersAsIngested(env, t, e, databaseId, input);
    SameFindings(env.repository.metrics, input);
  }

  /** A directory with what retrieval and the caller add to it. */
  function EvidenceOf(databaseId: string, input: ExperimentInput, chunks: seq<Chunk>, citations: seq<Citation>,
                      annualized: Option<AnnualAmount>, named: bool): RolloutConditions.Evidence {
    RolloutConditions.Evidence(RecordOf(databaseId, ExperimentOf(input.metadata)), ColonFreeNamed(input.metrics), chunks,
                               citations, annualized, named)
  }

  /** Reading the ingested metrics back makes no difference to whether they support a rollout. */
  lemma SameSupport(v: RolloutConditions.Evidence, databaseId: string, input: ExperimentInput)
    requires v.experiment == RecordOf(databaseId, ExperimentOf(input.metadata)) && AnswersLookups(v.metrics, input)
    ensures RolloutConditions.SupportsRollout(v) <==>
              RolloutConditions.SupportsRollout(EvidenceOf(databaseId, input, v.chunks, v.citations, v.annualized, v.named))
  {
    var visible := ColonFreeNamed(input.metrics);
    forall name, variant ensures LastMatch(visible, name, variant)
                                 == if ColonFree(name) then LastMatch(input.metrics, name, variant) else None {
      ColonFreeLookup(input.metrics, name, variant);
    }
    assert AnswersLookups(visible, input);
    hide LastMatch, AnswersLookups, AnalysisAgent.PairOf, RolloutConditions.PrimaryGrew, SomeGuardrailWorsened,
      AnalysisAgent.MatchingCitations, AnalysisAgent.NO_CITATIONS_NOTE, ContainsAny, Lower, FirstOccurrences, ColonFreeNamed,
      SomeReadableWorsened, HasPair, PrimaryImprovedOrEqual, ColonFree;
    SameFindings(v.metrics, input);
    SameFindings(visible, input);
  }

  /**
   With the registered tools it is answered with a rollout if and only if retrieval worked and the ingested
   directory, together with what was retrieved and noted, supports one.
   */
  lemma RolloutFromIngestedMetricsExactly(q: Query, env: Environment, states: seq<AgentState>, t: Tables, e: nat,
                                          databaseId: string, input: ExperimentInput)
    requires DefaultRun(q, env, states) && FullRun(q) && |states| == 8
    requires RegisteredLifts(env.impact.lifts) && DecisionAgent.RegisteredValidation(env.tools)
    requires Holds(t, e, input) && AnswersFrom(env, t, e, databaseId)
    ensures states[7].decision.recommendation == Rollout <==>
              && env.retrieval.Retrieved?
              && RolloutConditions.SupportsRollout(
                   EvidenceOf(databaseId, input, env.retrieval.chunks, env.retrieval.citations, env.impact.annualized,
                              q.experimentId.Some? && q.experimentId.value != ""))
  {
    assert env.repository.Resolved?;
    hide *;
    RolloutConditions.RolloutWithRegisteredToolsExactly(q, env, states);
    if env.retrieval.Retrieved? {
      RolloutConditions.EvidenceFields(q, env);
      LoadedAnswersAsIngested(env, t, e, databaseId, input);
      SameSupport(RolloutConditions.EvidenceFor(q, env), databaseId, input);
    }
  }
}
