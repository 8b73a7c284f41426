/**
 Publication of structured analyses: the service that holds the authoritative results
 (packages/experiments/analysis/orchestration/service.py) and what a protected node and the response may say
 of them (packages/experiments/analysis/orchestration/integrity.py).
 */
module AnalysisIntegrity {
  import opened Text
  import opened Counting
  import opened AgentStates
  import opened Workflow
  import AnalysisAgent = ExperimentAnalysisAgent
  import ImpactAgent = BusinessImpactAgent
  import RiskAgent = RiskAssessmentAgent
  import DecisionAgent
  import ApprovalAgent = HumanApprovalAgent
  import SummaryAgent = ExecutiveSummaryAgent

  // ---------------------------------------------------------------- the service

  type Results = map<string, Envelope>

  predicate Filed(results: Results) { forall id :: id in results ==> results[id].analysisId == id }

  const REJECTED_UPDATE := "analysis.integrity.rejected_update"
  const RESPONSE_MISMATCH := "analysis.integrity.response_mismatch"

  /** A finding is recorded once. */
  function WithFinding(e: Envelope, finding: IntegrityFinding): Envelope {
    if finding in e.findings then e else e.(findings := e.findings + [finding])
  }

  function OtherArtifacts(artifacts: seq<Artifact>, kind: string): seq<Artifact> {
    if artifacts == [] then []
    else
      var last := artifacts[|artifacts| - 1];
      OtherArtifacts(artifacts[..|artifacts| - 1], kind) + (if last.kind != kind then [last] else [])
  }

  const BUSINESS_ARTIFACT := "business_impact"

  /** The result once its business impact is analyzed: the new diagnostics, and one artifact of that kind. */
  function WithBusiness(e: Envelope, diagnostics: seq<Diagnostic>): Envelope {
    e.(diagnostics := e.diagnostics + diagnostics,
       artifacts := OtherArtifacts(e.artifacts, BUSINESS_ARTIFACT) + [Artifact(e.analysisId + ":business", BUSINESS_ARTIFACT)])
  }

  lemma {:induction false} OtherArtifactsMeaning(artifacts: seq<Artifact>, kind: string)
    ensures forall a :: a in OtherArtifacts(artifacts, kind) <==> a in artifacts && a.kind != kind
  {
    if artifacts != [] {
      var n := |artifacts| - 1;
      OtherArtifactsMeaning(artifacts[..n], kind);
      assert artifacts == artifacts[..n] + [artifacts[n]];
    }
  }

  /** Afterwards there is exactly one business artifact, named after the result; everything else of the result is as before. */
  lemma OneBusinessArtifact(e: Envelope, diagnostics: seq<Diagnostic>)
    ensures var after := WithBusiness(e, diagnostics);
            && (forall a :: a in after.artifacts <==>
                 (a in e.artifacts && a.kind != "business_impact") || a == Artifact(e.analysisId + ":business", "business_impact"))
            && after.diagnostics == e.diagnostics + diagnostics
            && after.analysisId == e.analysisId && after.analysisMethod == e.analysisMethod && after.status == e.status
            && after.findings == e.findings
  {
    OtherArtifactsMeaning(e.artifacts, BUSINESS_ARTIFACT);
    hide OtherArtifacts;
  }

  /** A finding is in the record afterwards, once, and the others stay. */
  lemma FindingRecorded(e: Envelope, finding: IntegrityFinding)
    requires Distinct(e.findings)
    ensures Distinct(WithFinding(e, finding).findings) && WithFinding(e, finding).(findings := e.findings) == e
    ensures forall f :: f in WithFinding(e, finding).findings <==> f in e.findings || f == finding
    ensures e.findings <= WithFinding(e, finding).findings
  {
  }

  /** `AnalysisService`: results by id; what the estimators answer is given to the methods. */
  class AnalysisService {
    var results: Results

    constructor ()
      ensures results == map[]
    {
      results := map[];
    }

    /** `_save` */
    method Save(result: Envelope) returns (saved: Envelope)
      modifies this
      ensures results == old(results)[result.analysisId := result] && saved == result
    {
      results := results[result.analysisId := result];
      return result;
    }

    /** `record_integrity` */
    method RecordIntegrity(analysisId: string, finding: IntegrityFinding) returns (result: Envelope)
      requires Filed(results) && analysisId in results
      modifies this
      ensures result == WithFinding(old(results)[analysisId], finding) && results == old(results)[analysisId := result]
      ensures Filed(results)
    {
      result := results[analysisId];
      var findings := result.findings;
      if finding !in findings {
        findings := findings + [finding];
      }
      result := Save(result.(findings := findings));
    }

    /** `analyze_business` */
    method AnalyzeBusiness(analysisId: string, diagnostics: seq<Diagnostic>) returns (result: Envelope)
      requires Filed(results) && analysisId in results
      modifies this
      ensures result == WithBusiness(old(results)[analysisId], diagnostics) && results == old(results)[analysisId := result]
      ensures Filed(results)
    {
      result := Save(WithBusiness(results[analysisId], diagnostics));
    }
  }

  // ---------------------------------------------------------------- what a protected node publishes

  /**
   What a node's handler proposes: an update, and whether it has a result field that holds nothing, or
   writes a further field otherwise than the repository's agent would.
   */
  datatype Proposal = Proposal(update: Update, dropsResult: bool, strangeFields: bool)

  function Plainly(u: Update): Proposal { Proposal(u, false, false) }

  /** `artifact_citations`; a citation's metadata is left out. */
  function ArtifactCitations(e: Envelope, request: Option<AnalysisRequest>): seq<Citation> {
    var experimentId := if request.Some? then request.value.experimentId else "";
    seq(|e.artifacts|, _ => Citation("", experimentId, "Structured analysis", ""))
  }

  /** Each artifact is cited once, under the request's experiment. */
  lemma ArtifactsAreCited(e: Envelope, request: Option<AnalysisRequest>)
    ensures |ArtifactCitations(e, request)| == |e.artifacts|
    ensures forall c :: c in ArtifactCitations(e, request) ==>
              && c.experimentId == (if request.Some? then request.value.experimentId else "")
              && c.section == "Structured analysis" && c.documentId == "" && c.quote == ""
  {
  }

  /** The state with the authoritative result and its citations. */
  function Trusted(s: AgentState, canonical: Envelope): AgentState {
    s.(result := Some(canonical), citations := ArtifactCitations(canonical, s.request))
  }

  /** What the repository's own agent makes of a state, at the nodes that may publish prose. */
  function OwnUpdate(node: Node, s: AgentState, env: Environment): Update {
    if node !in s.requiredAgents then NO_UPDATE
    else match node
      case RiskAssessment => RiskAgent.Run(s, env.riskToolFails)
      case DecisionMaking => DecisionAgent.Run(s, env.tools)
      case HumanApproval => ApprovalAgent.Run(s)
      case ExecutiveSummary => SummaryAgent.Run(s)
      case _ => NO_UPDATE
  }

  predicate Differs<T(==)>(proposed: Option<T>, own: Option<T>) { proposed.Some? && proposed != own }

  /** The proposal writes something otherwise than the repository's agent, logs and metrics apart. */
  predicate Conflicts(p: Proposal, own: Update, canonical: Envelope) {
    var u := p.update;
    || p.dropsResult || p.strangeFields || Differs(u.result, Some(canonical))
    || Differs(u.chunks, own.chunks) || Differs(u.citations, own.citations) || Differs(u.analysis, own.analysis)
    || Differs(u.metadata, own.metadata) || Differs(u.stateMetrics, own.stateMetrics) || Differs(u.impact, own.impact)
    || Differs(u.risk, own.risk) || Differs(u.decision, own.decision) || Differs(u.summary, own.summary)
    || Differs(u.approval, own.approval)
  }

  function PublishedTrace(node: Node, s: AgentState): seq<TraceEntry> {
    [TraceEntry(node, StartedEvent), TraceEntry(node, if node in s.requiredAgents then CompletedEvent else SkippedEvent)]
  }

  /** The own agent's update with the result, its citations, and the node's own trace and metrics. */
  function PublishedUpdate(node: Node, s: AgentState, own: Update, result: Envelope): Update {
    own.(result := Some(result), citations := Some(ArtifactCitations(result, s.request)),
         trace := PublishedTrace(node, s), metrics := Some(s.metrics[NodeKey(node) := NodeEntry(false, 0)]))
  }

  /** The result that is published for a proposal. */
  function PublishedResult(node: Node, p: Proposal, own: Update, canonical: Envelope): Envelope {
    if Conflicts(p, own, canonical) then WithFinding(canonical, IntegrityFinding(REJECTED_UPDATE, Known(node))) else canonical
  }

  /** The result a proposal is held against: the state's, or else the proposed one. */
  function Reference(s: AgentState, p: Proposal): Option<Envelope> {
    if s.result.Some? then s.result else if p.dropsResult then None else p.update.result
  }

  /** What `protect_update` returns and leaves in the service; `None` when it raises for an unknown result. */
  function Protect(node: Node, s: AgentState, p: Proposal, results: Results, env: Environment): Option<(Update, Results)> {
    match Reference(s, p)
    case None => Some((p.update, results))
    case Some(reference) =>
      var id := reference.analysisId;
      if id !in results then None
      else
        var own := OwnUpdate(node, Trusted(s, results[id]), env);
        var published := PublishedResult(node, p, own, results[id]);
        Some((PublishedUpdate(node, s, own, published), results[id := published]))
  }

  /** `protect_update` */
  method ProtectUpdate(node: Node, current: AgentState, proposed: Proposal, service: AnalysisService, env: Environment)
    returns (result: Option<Update>)
    requires Filed(service.results)
    modifies service
    ensures Filed(service.results)
    ensures match Protect(node, current, proposed, old(service.results), env)
            case None => result == None && service.results == old(service.results)
            case Some((update, results)) => result == Some(update) && service.results == results
  {
    hide OwnUpdate, Conflicts;
    var reference := Reference(current, proposed);
    if reference == None {
      return Some(proposed.update);
    }
    if reference.value.analysisId !in service.results {
      return None;
    }
    var canonical := service.results[reference.value.analysisId];
    var trusted := Trusted(current, canonical);
    var citations := trusted.citations;
    var own := OwnUpdate(node, trusted, env);
    assert service.results == service.results[canonical.analysisId := canonical];
    if Conflicts(proposed, own, canonical) {
      canonical := service.RecordIntegrity(canonical.analysisId, IntegrityFinding(REJECTED_UPDATE, Known(node)));
    }
    return Some(own.(result := Some(canonical), citations := Some(citations), trace := PublishedTrace(node, current),
                     metrics := Some(current.metrics[NodeKey(node) := NodeEntry(false, 0)])));
  }

  /** The result in the response, and what the service then holds; an unknown result raises. */
  function Response(s: AgentState, results: Results): Option<(AgentState, Results)> {
    match s.result
    case None => Some((s, results))
    case Some(result) =>
      var id := result.analysisId;
      if id !in results then None
      else
        var finding := IntegrityFinding(RESPONSE_MISMATCH, Foreign("response"));
        var canonical := if result != results[id] then WithFinding(results[id], finding) else results[id];
        Some((s.(result := Some(canonical)), results[id := canonical]))
  }

  // ---------------------------------------------------------------- protected runs

  /** The agents a caller injects into a structured run; analysis and business impact are always the repository's own. */
  type Injected = (Node, AgentState) -> Proposal

  datatype World = World(state: AgentState, results: Results)

  /** What the service and its estimators answer in a run. */
  datatype Answers = Answers(env: Environment, business: seq<Diagnostic>)

  /** The handler of a node: the wrapper, around an injected agent or one of the two that call the service. */
  function Propose(node: Node, w: World, agents: Injected, a: Answers): (Proposal, Results) {
    var s := w.state;
    if node !in s.requiredAgents then (Plainly(SkippedUpdate(node)), w.results)
    else match node
      case ExperimentAnalysis =>
        var envelope := a.env.structured;
        (Plainly(MergeMetrics(s, AnalysisAgent.Run(s, a.env.repository, envelope))),
         if s.request.Some? then w.results[envelope.analysisId := envelope] else w.results)
      case BusinessImpact =>
        var known := s.request.Some? && s.result.Some? && s.result.value.analysisId in w.results;
        var updated := if known then Some(WithBusiness(w.results[s.result.value.analysisId], a.business)) else None;
        (Plainly(MergeMetrics(s, ImpactAgent.Run(s, a.env.impact.(serviceAnswer := updated)))),
         if known then w.results[s.result.value.analysisId := updated.value] else w.results)
      case _ =>
        var p := agents(node, s);
        (p.(update := MergeMetrics(s, p.update)), w.results)
  }

  /** The service is asked for a result that it does not hold. */
  predicate AsksInVain(node: Node, w: World) {
    && node == BusinessImpact && node in w.state.requiredAgents && w.state.request.Some? && w.state.result.Some?
    && w.state.result.value.analysisId !in w.results
  }

  /** One protected node; `None` when it raises. */
  function ProtectedStep(node: Node, w: World, agents: Injected, a: Answers): Option<World> {
    if AsksInVain(node, w) then None
    else
      var (p, results) := Propose(node, w, agents, a);
      match Protect(node, w.state, p, results, a.env)
      case None => None
      case Some((update, after)) => Some(World(Apply(w.state, update), after))
  }

  /** The first worlds of a run of the protected graph on a structured request, with a new service. */
  ghost predicate Begins(q: Query, agents: Injected, a: Answers, worlds: seq<World>) {
    && q.request.Some? && a.env.structured.findings == []
    && 0 < |worlds| <= |NODE_ORDER| && worlds[0] == World(PlannerState(q), map[])
    && forall k :: 0 < k < |worlds| ==> ProtectedStep(NODE_ORDER[k], worlds[k - 1], agents, a) == Some(worlds[k])
  }

  ghost predicate IsProtectedRun(q: Query, agents: Injected, a: Answers, worlds: seq<World>) {
    Begins(q, agents, a, worlds) && |worlds| == |NODE_ORDER|
  }
}
