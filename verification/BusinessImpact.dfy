/** The business-impact agent (packages/agents/business_impact_agent.py). */
module BusinessImpactAgent {
  import opened Text
  import opened MetricStore
  import opened AgentStates
  import ExperimentAnalysisAgent

  datatype RelativeLiftOutput = RelativeLiftOutput(relativeLift: Option<real>, undefinedZeroBaseline: bool)

  /** The tools registered under the two lift names, on their payloads; `None` stands for a failed call. */
  datatype LiftTools = LiftTools(
    absolute: (real, real) -> Option<real>,
    relative: (real, Option<real>, real) -> Option<RelativeLiftOutput>)

  /** `calculate_absolute_lift` (packages/agents/tools/business.py) */
  function CalculateAbsoluteLift(baseline: real, treatment: real): Option<real> {
    Some(ExperimentAnalysisAgent.Round6(treatment - baseline))
  }

  /** `calculate_relative_lift` (packages/agents/tools/business.py) */
  function CalculateRelativeLift(baseline: real, absoluteLift: Option<real>, treatment: real): Option<RelativeLiftOutput> {
    if baseline == 0.0 then Some(RelativeLiftOutput(None, true))
    else
      var lift := OrElse(absoluteLift, treatment - baseline);
      Some(RelativeLiftOutput(Some(ExperimentAnalysisAgent.Round6(lift / baseline)), false))
  }

  /** The tools that `_register_builtin_tools` registers. */
  ghost predicate RegisteredLifts(lifts: LiftTools) {
    && (forall b, t :: lifts.absolute(b, t) == CalculateAbsoluteLift(b, t))
    && (forall b, a, t :: lifts.relative(b, a, t) == CalculateRelativeLift(b, a, t))
  }

  /**
   The lift tools, and what the sources state explicitly: an annual amount, operational savings and
   an affected segment.
   */
  datatype ImpactInputs = ImpactInputs(
    lifts: LiftTools,
    annualized: Option<AnnualAmount>, hasSavings: bool, segment: string,
    serviceAnswer: Option<Envelope>)

  const ZERO_BASELINE_NOTE := "Baseline value was zero, so relative lift was not computed."
  const OBSERVED_ONLY_NOTE := "Baseline and treatment values were unavailable, so only observed lift could be reported."
  const NO_ESTIMATE_NOTE :=
    "Business impact could not be estimated because baseline, treatment, and observed lift data were unavailable."
  const NO_ANNUALIZED_NOTE := "No explicit annualized impact was available in shared state evidence."

  const NO_LIFT_TO_FORMAT := "unsupported format string passed to NoneType.__format__"

  /** The control and treatment values, from the analysis or else from the stored metrics. */
  function Values(s: AgentState): (Option<real>, Option<real>) {
    var a := s.analysis;
    var primary := if a.primaryMetric != "" then a.primaryMetric else s.metadata.primaryMetric;
    if a.control.Some? && a.treatment.Some? then (a.control, a.treatment)
    else (ValueOf(LastMatch(s.stateMetrics, primary, "control")), ValueOf(LastMatch(s.stateMetrics, primary, "treatment")))
  }

  /**
   `_build_business_impact`. It raises when values are present but the absolute-lift call failed:
   the summary then formats a lift of `None`.
   */
  function Build(s: AgentState, p: ImpactInputs): Result<(Impact, seq<ToolCall>), string> {
    var (baseline, treatment) := Values(s);
    var citations := if s.analysis.citations != [] then s.analysis.citations else s.citations;
    var annualizedNote := if p.annualized.Some? then [] else [NO_ANNUALIZED_NOTE];
    if baseline.Some? && treatment.Some? then
      var absolute := p.lifts.absolute(baseline.value, treatment.value);
      if absolute == None then Err(NO_LIFT_TO_FORMAT)
      else
        var output := p.lifts.relative(baseline.value, absolute, treatment.value);
        var relative := if output.Some? then output.value.relativeLift else None;
        var zeroNote := if output.Some? && output.value.undefinedZeroBaseline then [ZERO_BASELINE_NOTE] else [];
        Ok((Impact(Estimated, baseline, treatment, absolute, relative, p.annualized, s.analysis.confidence,
                   s.analysis.limitations + zeroNote + annualizedNote, citations),
            [ToolCall("calculate_absolute_lift", Known(BusinessImpact), false),
             ToolCall("calculate_relative_lift", Known(BusinessImpact), output == None)]))
    else
      var observed := s.analysis.observedLift;
      var stated := p.annualized.Some? || p.hasSavings || p.segment != "";
      Ok((Impact(if observed.Some? || stated then PartialEstimate else ImpactInsufficient,
                 baseline, treatment, None, observed, p.annualized, s.analysis.confidence,
                 s.analysis.limitations + [if observed.Some? then OBSERVED_ONLY_NOTE else NO_ESTIMATE_NOTE] + annualizedNote,
                 citations),
          []))
  }

  /** `BusinessImpactAgent.run` */
  function Run(s: AgentState, p: ImpactInputs): Update {
    var started := TraceEntry(BusinessImpact, StartedEvent);
    var key := NodeKey(BusinessImpact);
    if s.request.Some? then
      if s.result == None || p.serviceAnswer == None then
        NO_UPDATE.(trace := [TraceEntry(BusinessImpact, SkippedEvent)])
      else
        NO_UPDATE.(result := p.serviceAnswer, metrics := Some(map[key := NodeEntry(false, 0)]),
                   trace := [started, TraceEntry(BusinessImpact, CompletedEvent)])
    else match Build(s, p)
      case Err(message) =>
        NO_UPDATE.(errors := [ErrorRecord("business_impact_failed", message, Known(BusinessImpact))],
                   metrics := Some(s.metrics[key := NodeEntry(true, 0)]),
                   trace := [started, TraceEntry(BusinessImpact, FailedEvent)])
      case Ok((impact, calls)) =>
        NO_UPDATE.(impact := Some(impact), toolCalls := calls,
                   metrics := Some(s.metrics[key := NodeEntry(false, |impact.citations|)]),
                   trace := [started, TraceEntry(BusinessImpact, CompletedEvent)])
  }

  /** Reading the values back with the linear scan gives the pair that `Values` is stated with. */
  method ReadValues(s: AgentState) returns (baseline: Option<real>, treatment: Option<real>)
    ensures (baseline, treatment) == Values(s)
  {
    hide LastMatch;
    var primary := if s.analysis.primaryMetric != "" then s.analysis.primaryMetric else s.metadata.primaryMetric;
    baseline, treatment := s.analysis.control, s.analysis.treatment;
    if baseline == None || treatment == None {
      baseline, treatment := MetricValuesFromStateMetrics(s.stateMetrics, primary);
    }
  }
}
