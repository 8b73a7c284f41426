/** The experiment-analysis agent (packages/agents/experiment_analysis_agent.py). */
module ExperimentAnalysisAgent {
  import opened Text
  import opened MetricStore
  import opened AgentStates

  datatype Experiment = Experiment(
    databaseId: string, externalId: string, primaryMetric: string,
    imperfections: seq<string>, businessDecision: string)

  /** What the repository answers: an exception, no experiment, or one with its stored metrics. */
  datatype RepositoryAnswer =
    | RepositoryRaised(message: string)
    | NoExperiment
    | Resolved(experiment: Experiment, metrics: seq<Metric>)

  /** `round(x, 6)`: half to even. */
  function Round6(x: real): real {
    var scaled := x * 1000000.0;
    var below := scaled.Floor;
    var fraction := scaled - below as real;
    var nearest := if fraction < 0.5 || (fraction == 0.5 && below % 2 == 0) then below else below + 1;
    nearest as real / 1000000.0
  }

  /** The nearest multiple of a millionth, and of two nearest ones the even one. */
  lemma Round6Exactly(x: real) returns (n: int)
    ensures Round6(x) * 1000000.0 == n as real
    ensures -0.5 <= x * 1000000.0 - n as real <= 0.5
    ensures x * 1000000.0 - n as real in {-0.5, 0.5} ==> n % 2 == 0
  {
    var scaled := x * 1000000.0;
    var below := scaled.Floor;
    var fraction := scaled - below as real;
    n := if fraction < 0.5 || (fraction == 0.5 && below % 2 == 0) then below else below + 1;
    assert Round6(x) == n as real / 1000000.0;
    Scaled(n as real);
  }

  lemma Scaled(x: real)
    ensures x / 1000000.0 * 1000000.0 == x
  {
  }

  /** `_metric_comparison_record`: the stored lift wins over the computed one. */
  function Compare(metricName: string, control: Metric, treatment: Metric): Comparison {
    var lift :=
      if treatment.liftVsControl.Some? then treatment.liftVsControl
      else if control.value != 0.0 then Some(Round6((treatment.value - control.value) / control.value))
      else None;
    Comparison(metricName, control.value, treatment.value, Round6(treatment.value - control.value), lift, treatment.pValue)
  }

  function PairOf(metrics: seq<Metric>, name: string): Option<Comparison> {
    match (LastMatch(metrics, name, "control"), LastMatch(metrics, name, "treatment"))
    case (Some(control), Some(treatment)) => Some(Compare(name, control, treatment))
    case _ => None
  }

  /** Every other metric with both variants, in index order. */
  function Guardrails(metrics: seq<Metric>, names: seq<string>, primary: string): seq<Comparison> {
    if names == [] then []
    else
      var name := names[|names| - 1];
      Guardrails(metrics, names[..|names| - 1], primary)
      + (if name != primary && PairOf(metrics, name).Some? then [PairOf(metrics, name).value] else [])
  }

  function AnalysisConfidence(significance: Option<real>, citations: seq<Citation>,
                              guardrails: seq<Comparison>): Confidence {
    if significance.Some? && citations != [] && guardrails != [] then High
    else if significance.Some? || guardrails != [] then Medium
    else Low
  }

  function ExperimentId(e: Experiment): string { if e.externalId != "" then e.externalId else e.databaseId }

  const NO_CITATIONS_NOTE := "Retrieval did not provide supporting citations for this experiment."

  function MissingPairNote(primary: string): string {
    "Primary metric " + primary + " is missing control or treatment data in stored metrics."
  }

  /** What `_build_analysis` returns, stated over the plain metric list. */
  function AnalysisOf(e: Experiment, metrics: seq<Metric>, citations: seq<Citation>): Analysis {
    match PairOf(metrics, e.primaryMetric)
    case None =>
      NO_ANALYSIS.(status := AnalysisInsufficient, experimentId := ExperimentId(e), primaryMetric := e.primaryMetric,
                   limitations := e.imperfections + [MissingPairNote(e.primaryMetric)], citations := citations)
    case Some(pair) =>
      var guardrails := Guardrails(metrics, NamesOf(metrics), e.primaryMetric);
      Analysis(
        AnalysisCompleted, ExperimentId(e), e.primaryMetric, Some(pair.controlValue), Some(pair.treatmentValue),
        Some(pair), pair.relativeLift, pair.pValue, guardrails,
        e.imperfections + (if citations == [] then [NO_CITATIONS_NOTE] else []), citations,
        AnalysisConfidence(pair.pValue, citations, guardrails))
  }

  /** The index's own answer to a control/treatment lookup. */
  function IndexedPair(grouped: map<string, map<string, Metric>>, name: string): Option<Comparison> {
    if name in grouped && "control" in grouped[name] && "treatment" in grouped[name]
    then Some(Compare(name, grouped[name]["control"], grouped[name]["treatment"]))
    else None
  }

  /** Looking a pair up in the index is looking it up in the metric list. */
  lemma IndexedPairIsPair(metrics: seq<Metric>, order: seq<string>, grouped: map<string, map<string, Metric>>,
                          name: string)
    requires Indexes(metrics, order, grouped)
    ensures IndexedPair(grouped, name) == PairOf(metrics, name)
  {
    hide LastMatch, NamesOf, Compare;
  }

  /** The comprehension over the index that collects the guardrail comparisons. */
  method CollectGuardrails(ghost metrics: seq<Metric>, order: seq<string>, grouped: map<string, map<string, Metric>>,
                           primary: string)
    returns (guardrails: seq<Comparison>)
    requires Indexes(metrics, order, grouped)
    ensures guardrails == Guardrails(metrics, order, primary)
  {
    hide Indexes, IndexedPair, PairOf;
    guardrails := [];
    for i := 0 to |order|
      invariant guardrails == Guardrails(metrics, order[..i], primary)
    {
      var name := order[i];
      assert order[..i + 1][..i] == order[..i];
      IndexedPairIsPair(metrics, order, grouped, name);
      var pair := IndexedPair(grouped, name);
      if name != primary && pair.Some? {
        guardrails := guardrails + [pair.value];
      }
    }
    assert order[..|order|] == order;
  }

  /** `_build_analysis`, over the nested-dict index. */
  method BuildAnalysis(e: Experiment, metrics: seq<Metric>, citations: seq<Citation>) returns (analysis: Analysis)
    ensures analysis == AnalysisOf(e, metrics, citations)
  {
    hide PairOf, IndexedPair, Guardrails;
    var order, grouped := GroupMetrics(metrics);
    assert order == NamesOf(metrics);
    IndexedPairIsPair(metrics, order, grouped, e.primaryMetric);
    hide Indexes, NamesOf;
    var primary := IndexedPair(grouped, e.primaryMetric);
    var limitations := e.imperfections;
    match primary
    case None =>
      limitations := limitations + [MissingPairNote(e.primaryMetric)];
      return NO_ANALYSIS.(status := AnalysisInsufficient, experimentId := ExperimentId(e),
                          primaryMetric := e.primaryMetric, limitations := limitations, citations := citations);
    case Some(comparison) =>
      var guardrails := CollectGuardrails(metrics, order, grouped, e.primaryMetric);
      if citations == [] {
        limitations := limitations + [NO_CITATIONS_NOTE];
      }
      return Analysis(
        AnalysisCompleted, ExperimentId(e), e.primaryMetric, Some(comparison.controlValue), Some(comparison.treatmentValue),
        Some(comparison), comparison.relativeLift, comparison.pValue, guardrails, limitations, citations,
        AnalysisConfidence(comparison.pValue, citations, guardrails));
  }

  /** `_matching_citations` */
  function MatchingCitations(citations: seq<Citation>, e: Experiment): seq<Citation> {
    if citations == [] then []
    else
      var last := citations[|citations| - 1];
      MatchingCitations(citations[..|citations| - 1], e)
      + (if last.experimentId == e.databaseId || last.experimentId == e.externalId then [last] else [])
  }

  /** The citations that name the experiment by one of its identifiers. */
  lemma {:induction false} MatchingCitationsMeaning(citations: seq<Citation>, e: Experiment)
    ensures forall c :: c in MatchingCitations(citations, e) <==>
              c in citations && c.experimentId in {e.databaseId, e.externalId}
  {
    if citations != [] {
      var n := |citations| - 1;
      MatchingCitationsMeaning(citations[..n], e);
      assert citations == citations[..n] + [citations[n]];
    }
  }

  /** The external identifier names the experiment, unless it has none. */
  lemma AnalysisNames(e: Experiment, metrics: seq<Metric>, citations: seq<Citation>)
    ensures AnalysisOf(e, metrics, citations).experimentId in {e.externalId, e.databaseId}
    ensures e.externalId != "" ==> AnalysisOf(e, metrics, citations).experimentId == e.externalId
    ensures AnalysisOf(e, metrics, citations).experimentId == "" ==> e.externalId == "" && e.databaseId == ""
  {
    hide PairOf, Guardrails, NamesOf, NO_CITATIONS_NOTE, MissingPairNote;
  }

  /** High confidence takes a p-value, a citation and a guardrail; a p-value or a guardrail gives medium confidence. */
  lemma ConfidenceExactly(e: Experiment, metrics: seq<Metric>, citations: seq<Citation>)
    requires PairOf(metrics, e.primaryMetric).Some?
    ensures var a := AnalysisOf(e, metrics, citations);
            && (a.confidence == High <==> a.significance.Some? && citations != [] && a.guardrails != [])
            && (a.confidence == Low <==> a.significance == None && a.guardrails == [])
            && a.confidence in {High, Medium, Low}
  {
    hide PairOf, Guardrails, NamesOf, NO_CITATIONS_NOTE, ExperimentId;
  }

  const UNRESOLVED_NOTE := "Experiment resolution failed before metric analysis could begin."

  /** `ExperimentAnalysisAgent.run`; `structured` is the analyzer's answer to a structured request. */
  function Run(s: AgentState, answer: RepositoryAnswer, structured: Envelope): Update {
    var started := TraceEntry(ExperimentAnalysis, StartedEvent);
    var key := NodeKey(ExperimentAnalysis);
    if s.request.Some? then
      NO_UPDATE.(result := Some(structured), metrics := Some(map[key := NodeEntry(false, 0)]),
                 trace := [started, TraceEntry(ExperimentAnalysis, CompletedEvent)])
    else match answer
      case RepositoryRaised(message) =>
        NO_UPDATE.(errors := [ErrorRecord("experiment_analysis_failed", message, Known(ExperimentAnalysis))],
                   metrics := Some(s.metrics[key := NodeEntry(true, |s.citations|)]),
                   trace := [started, TraceEntry(ExperimentAnalysis, FailedEvent)])
      case NoExperiment =>
        var analysis := NO_ANALYSIS.(status := AnalysisInsufficient, limitations := [UNRESOLVED_NOTE], citations := s.citations);
        Completed(s, analysis, Metadata("", [], ""), [])
      case Resolved(e, metrics) =>
        Completed(s, AnalysisOf(e, metrics, MatchingCitations(s.citations, e)),
                  Metadata(e.primaryMetric, e.imperfections, e.businessDecision), metrics)
  }

  function Completed(s: AgentState, analysis: Analysis, metadata: Metadata, metrics: seq<Metric>): Update {
    NO_UPDATE.(analysis := Some(analysis), metadata := Some(metadata), stateMetrics := Some(metrics),
               metrics := Some(s.metrics[NodeKey(ExperimentAnalysis) := NodeEntry(false, |analysis.citations|)]),
               trace := [TraceEntry(ExperimentAnalysis, StartedEvent), TraceEntry(ExperimentAnalysis, CompletedEvent)])
  }
}
