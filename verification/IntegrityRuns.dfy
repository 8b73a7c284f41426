/** What holds of every protected run of a structured request, whatever the injected agents propose. */
module IntegrityRuns {
  import opened Text
  import opened MetricStore
  import opened AgentStates
  import opened Workflow
  import opened WorkflowRuns
  import opened AnalysisIntegrity
  import AnalysisAgent = ExperimentAnalysisAgent
  import ImpactAgent = BusinessImpactAgent
  import RiskAgent = RiskAssessmentAgent
  import DecisionAgent
  import ApprovalAgent = HumanApprovalAgent
  import SummaryAgent = ExecutiveSummaryAgent

  // ---------------------------------------------------------------- one step after the analysis

  /** The state says of the analysis what the service holds, and cites its artifacts. */
  ghost predicate Settled(w: World, a: Answers) {
    var id := a.env.structured.analysisId;
    && w.state.request.Some? && id in w.results && Filed(w.results) && w.state.result == Some(w.results[id])
    && w.state.citations == ArtifactCitations(w.results[id], w.state.request)
  }

  /** The service's result once the node's handler has run. */
  function Canonical(node: Node, w: World, a: Answers): Envelope
    requires a.env.structured.analysisId in w.results
  {
    var held := w.results[a.env.structured.analysisId];
    if node == BusinessImpact && node in w.state.requiredAgents then WithBusiness(held, a.business) else held
  }

  function Own(node: Node, w: World, a: Answers): Update
    requires a.env.structured.analysisId in w.results
  {
    OwnUpdate(node, Trusted(w.state, Canonical(node, w, a)), a.env)
  }

  /** An injected agent is asked and proposes something otherwise than the repository's own agent. */
  predicate Rejected(node: Node, w: World, agents: Injected, a: Answers)
    requires a.env.structured.analysisId in w.results
  {
    && Position(node) >= 4 && node in w.state.requiredAgents
    && Conflicts(agents(node, w.state), Own(node, w, a), Canonical(node, w, a))
  }

  function Published(node: Node, w: World, agents: Injected, a: Answers): Envelope
    requires a.env.structured.analysisId in w.results
  {
    var canonical := Canonical(node, w, a);
    if Rejected(node, w, agents, a) then WithFinding(canonical, IntegrityFinding(REJECTED_UPDATE, Known(node))) else canonical
  }

  /** The world after a node behind the analysis. */
  function LateWorld(node: Node, w: World, agents: Injected, a: Answers): World
    requires a.env.structured.analysisId in w.results
  {
    var published := Published(node, w, agents, a);
    World(Apply(w.state, PublishedUpdate(node, w.state, Own(node, w, a), published)),
          w.results[a.env.structured.analysisId := published])
  }

  lemma MetricsNeverConflict(s: AgentState, p: Proposal, own: Update, canonical: Envelope)
    ensures Conflicts(p.(update := MergeMetrics(s, p.update)), own, canonical) <==> Conflicts(p, own, canonical)
  {
  }

  lemma LogsNeverConflict(u: Update, own: Update, canonical: Envelope)
    requires u == NO_UPDATE.(result := u.result, metrics := u.metrics, trace := u.trace)
    requires u.result in {None, Some(canonical)}
    ensures !Conflicts(Plainly(u), own, canonical)
  {
  }

  lemma BusinessStep(w: World, agents: Injected, a: Answers)
    requires Settled(w, a)
    ensures ProtectedStep(BusinessImpact, w, agents, a) == Some(LateWorld(BusinessImpact, w, agents, a))
  {
    hide Apply, OwnUpdate, ArtifactCitations, WithBusiness, ImpactAgent.Build, Conflicts;
    var id := a.env.structured.analysisId;
    var (p, results) := Propose(BusinessImpact, w, agents, a);
    var canonical := Canonical(BusinessImpact, w, a);
    assert w.state.result.value.analysisId == id;
    assert results == w.results[id := canonical];
    LogsNeverConflict(p.update, Own(BusinessImpact, w, a), canonical);
    var published := Published(BusinessImpact, w, agents, a);
    assert published == canonical;
    assert PublishedResult(BusinessImpact, p, Own(BusinessImpact, w, a), canonical) == canonical;
    assert Reference(w.state, p) == w.state.result;
    assert Protect(BusinessImpact, w.state, p, results, a.env)
        == Some((PublishedUpdate(BusinessImpact, w.state, Own(BusinessImpact, w, a), canonical), results[id := canonical]));
    assert results[id := canonical] == w.results[id := canonical];
    assert !AsksInVain(BusinessImpact, w);
    hide Protect, Propose, PublishedUpdate, Own, Canonical;
  }

  lemma InjectedStep(node: Node, w: World, agents: Injected, a: Answers)
    requires Settled(w, a) && Position(node) >= 4
    ensures ProtectedStep(node, w, agents, a) == Some(LateWorld(node, w, agents, a))
  {
    hide Apply, OwnUpdate, ArtifactCitations, WithBusiness, Conflicts, MergeMetrics;
    var id := a.env.structured.analysisId;
    var own, canonical := Own(node, w, a), Canonical(node, w, a);
    LogsNeverConflict(SkippedUpdate(node), own, canonical);
    MetricsNeverConflict(w.state, agents(node, w.state), own, canonical);
    assert w.results[id := canonical] == w.results;
  }

  /** Behind the analysis a node never raises, and publishes the own agent's update on the authoritative result. */
  lemma LateStep(node: Node, w: World, agents: Injected, a: Answers)
    requires Settled(w, a) && Position(node) >= 3
    ensures ProtectedStep(node, w, agents, a) == Some(LateWorld(node, w, agents, a))
  {
    hide *;
    if node == BusinessImpact {
      BusinessStep(w, agents, a);
    } else {
      OnlyBusinessIsThird(node);
      InjectedStep(node, w, agents, a);
    }
  }

  lemma OnlyBusinessIsThird(node: Node)
    requires Position(node) >= 3 && node != BusinessImpact
    ensures Position(node) >= 4
  {
  }

  lemma LateWorldSettled(node: Node, w: World, agents: Injected, a: Answers)
    requires Settled(w, a)
    ensures Settled(LateWorld(node, w, agents, a), a)
  {
    hide OwnUpdate, Conflicts;
  }

  // ---------------------------------------------------------------- the steps up to the analysis

  /** Nothing is known of an analysis yet. */
  ghost predicate Untouched(w: World) {
    && w.state.request.Some? && w.state.result == None && w.results == map[]
    && ExperimentAnalysis in w.state.requiredAgents && Retrieval !in w.state.requiredAgents
  }

  lemma RetrievalIsSkipped(w: World, agents: Injected, a: Answers)
    requires Untouched(w)
    ensures ProtectedStep(Retrieval, w, agents, a) == Some(World(Apply(w.state, SkippedUpdate(Retrieval)), map[]))
  {
    hide Apply, OwnUpdate, ArtifactCitations, WithBusiness, Conflicts;
  }

  /** The world once the analysis is there. */
  function Analyzed(w: World, a: Answers): World {
    World(Apply(w.state, PublishedUpdate(ExperimentAnalysis, w.state, NO_UPDATE, a.env.structured)),
          map[a.env.structured.analysisId := a.env.structured])
  }

  lemma AnalysisStep(w: World, agents: Injected, a: Answers)
    requires Untouched(w)
    ensures ProtectedStep(ExperimentAnalysis, w, agents, a) == Some(Analyzed(w, a))
    ensures Settled(Analyzed(w, a), a)
  {
    hide Apply, ArtifactCitations, WithBusiness, Conflicts, AnalysisAgent.AnalysisOf, AnalysisAgent.MatchingCitations;
    var (p, results) := Propose(ExperimentAnalysis, w, agents, a);
    var canonical := a.env.structured;
    assert results == map[canonical.analysisId := canonical] && p.update.result == Some(canonical);
    var own := OwnUpdate(ExperimentAnalysis, Trusted(w.state, canonical), a.env);
    assert own == NO_UPDATE;
    LogsNeverConflict(p.update, own, canonical);
    assert results[canonical.analysisId := canonical] == results;
    AnalyzedIsSettled(w, a);
  }

  lemma AnalyzedIsSettled(w: World, a: Answers)
    requires Untouched(w)
    ensures Settled(Analyzed(w, a), a)
  {
    hide ArtifactCitations;
  }

  // ---------------------------------------------------------------- whole runs

  /** What no node changes: the request, the plan and the caller's approval input. */
  ghost predicate Planned(q: Query, s: AgentState) {
    s.request == q.request && s.requiredAgents == PlannedAgents(q) && s.approvalInput == q.approvalInput
  }

  lemma ApplyKeepsPlan(q: Query, s: AgentState, u: Update)
    requires Planned(q, s)
    ensures Planned(q, Apply(s, u))
  {
  }

  lemma StructuredPlan(q: Query, s: AgentState)
    requires q.request.Some? && Planned(q, s)
    ensures ExperimentAnalysis in s.requiredAgents && ExecutiveSummary in s.requiredAgents
    ensures Retrieval !in s.requiredAgents && Planner !in s.requiredAgents
  {
  }

  /** What is known of world `k` of a run. */
  ghost predicate Stands(q: Query, a: Answers, w: World, k: nat) {
    && Planned(q, w.state) && (if k < 2 then Untouched(w) else Settled(w, a))
  }

  lemma FirstStands(q: Query, a: Answers)
    requires q.request.Some?
    ensures Stands(q, a, World(PlannerState(q), map[]), 0)
  {
    var s := PlannerState(q);
    assert Planned(q, s);
    StructuredPlan(q, s);
    hide PlannedAgents;
  }

  /** From a world that stands the next node leaves one that stands. */
  lemma NextStands(q: Query, a: Answers, agents: Injected, w: World, k: nat)
    requires q.request.Some? && 0 < k < |NODE_ORDER| && Stands(q, a, w, k - 1)
    ensures ProtectedStep(NODE_ORDER[k], w, agents, a).Some?
    ensures Stands(q, a, ProtectedStep(NODE_ORDER[k], w, agents, a).value, k)
  {
    assert NODE_ORDER[1] == Retrieval && NODE_ORDER[2] == ExperimentAnalysis;
    PositionInOrder(k);
    hide NODE_ORDER, Apply, SkippedUpdate, Settled, ProtectedStep, LateWorld, Analyzed, Planned;
    if k == 1 {
      RetrievalIsSkipped(w, agents, a);
      SkipStands(q, w);
    } else if k == 2 {
      AnalysisStep(w, agents, a);
      PublishedKeepsPlan(q, w, a);
    } else {
      LateStep(NODE_ORDER[k], w, agents, a);
      LateWorldSettled(NODE_ORDER[k], w, agents, a);
      LateKeepsPlan(q, NODE_ORDER[k], w, agents, a);
    }
  }

  lemma SkipStands(q: Query, w: World)
    requires Planned(q, w.state) && Untouched(w)
    ensures var after := World(Apply(w.state, SkippedUpdate(Retrieval)), map[]);
            Planned(q, after.state) && Untouched(after)
  {
    hide PlannedAgents;
  }

  lemma PublishedKeepsPlan(q: Query, w: World, a: Answers)
    requires Planned(q, w.state)
    ensures Planned(q, Analyzed(w, a).state)
  {
    hide PlannedAgents, ArtifactCitations;
  }

  lemma LateKeepsPlan(q: Query, node: Node, w: World, agents: Injected, a: Answers)
    requires Planned(q, w.state) && a.env.structured.analysisId in w.results
    ensures Planned(q, LateWorld(node, w, agents, a).state)
  {
    hide Planned, Own, Published, PublishedUpdate, Apply;
    ApplyKeepsPlan(q, w.state, PublishedUpdate(node, w.state, Own(node, w, a), Published(node, w, agents, a)));
  }

  lemma {:induction false} WorldStands(q: Query, agents: Injected, a: Answers, worlds: seq<World>, k: nat)
    requires Begins(q, agents, a, worlds) && k < |worlds|
    ensures Stands(q, a, worlds[k], k)
  {
    hide Stands, ProtectedStep, PlannerState;
    if k == 0 {
      FirstStands(q, a);
    } else {
      WorldStands(q, agents, a, worlds, k - 1);
      NextStands(q, a, agents, worlds[k - 1], k);
    }
  }

  /** What the steps of a run are. */
  lemma StepKinds(q: Query, agents: Injected, a: Answers, worlds: seq<World>, k: nat)
    requires Begins(q, agents, a, worlds) && 0 < k < |worlds|
    ensures k == 1 ==> worlds[k] == World(Apply(worlds[k - 1].state, SkippedUpdate(Retrieval)), map[])
    ensures k == 2 ==> worlds[k] == Analyzed(worlds[k - 1], a)
    ensures k >= 3 ==> Settled(worlds[k - 1], a) && worlds[k] == LateWorld(NODE_ORDER[k], worlds[k - 1], agents, a)
  {
    assert NODE_ORDER[1] == Retrieval && NODE_ORDER[2] == ExperimentAnalysis;
    hide NODE_ORDER, Apply, SkippedUpdate, Settled, ProtectedStep, LateWorld, Analyzed, Planned, PlannerState, Untouched;
    PositionInOrder(k);
    WorldStands(q, agents, a, worlds, k - 1);
    if k == 1 {
      RetrievalIsSkipped(worlds[k - 1], agents, a);
    } else if k == 2 {
      AnalysisStep(worlds[k - 1], agents, a);
    } else {
      LateStep(NODE_ORDER[k], worlds[k - 1], agents, a);
    }
  }

  /** No node of a structured run raises in `protect_update`: whatever is injected, the run goes through. */
  lemma {:induction false} ProtectedRunsExist(q: Query, agents: Injected, a: Answers, n: nat) returns (worlds: seq<World>)
    requires q.request.Some? && a.env.structured.findings == [] && 0 < n <= |NODE_ORDER|
    ensures Begins(q, agents, a, worlds) && |worlds| == n
    ensures n == |NODE_ORDER| ==> IsProtectedRun(q, agents, a, worlds)
  {
    hide Stands, ProtectedStep, PlannerState, NODE_ORDER;
    if n == 1 {
      worlds := [World(PlannerState(q), map[])];
    } else {
      worlds := ProtectedRunsExist(q, agents, a, n - 1);
      WorldStands(q, agents, a, worlds, n - 2);
      NextStands(q, a, agents, worlds[n - 2], n - 1);
      worlds := worlds + [ProtectedStep(NODE_ORDER[n - 1], worlds[n - 2], agents, a).value];
    }
  }

  // ---------------------------------------------------------------- invoking the protected graph

  /** The worlds left by the protected nodes that are reached from a vertex, following at most `fuel` edges. */
  function FollowProtected(edges: map<Vertex, Vertex>, from: Vertex, q: Query, w: World, agents: Injected, a: Answers,
                           fuel: nat): Option<seq<World>>
    decreases fuel
  {
    if fuel == 0 || from !in edges || edges[from] == Start then None
    else match edges[from]
      case End => Some([])
      case Step(node) =>
        match VisitProtected(node, q, w, agents, a)
        case None => None
        case Some(t) =>
          match FollowProtected(edges, Step(node), q, t, agents, a, fuel - 1)
          case None => None
          case Some(rest) => Some([t] + rest)
  }

  /** The planner is not protected. */
  function VisitProtected(node: Node, q: Query, w: World, agents: Injected, a: Answers): Option<World> {
    if node == Planner then Some(World(PlannerState(q), w.results)) else ProtectedStep(node, w, agents, a)
  }

  function InvokeProtected(edges: map<Vertex, Vertex>, q: Query, agents: Injected, a: Answers): Option<seq<World>> {
    FollowProtected(edges, Start, q, World(InitialState(q.experimentId, q.approvalInput, q.request), map[]), agents, a,
                    |NODE_ORDER| + 1)
  }

  lemma {:induction false} FollowsWorlds(edges: map<Vertex, Vertex>, q: Query, agents: Injected, a: Answers, worlds: seq<World>,
                                         k: nat)
    requires Wired(edges) && IsProtectedRun(q, agents, a, worlds) && k < |NODE_ORDER|
    ensures FollowProtected(edges, Step(NODE_ORDER[k]), q, worlds[k], agents, a, |NODE_ORDER| - k) == Some(worlds[k + 1..])
    decreases |NODE_ORDER| - k
  {
    PlannerComesFirst();
    hide NODE_ORDER, PlannerState, ProtectedStep;
    if k + 1 < |NODE_ORDER| {
      FollowsWorlds(edges, q, agents, a, worlds, k + 1);
      assert VisitProtected(NODE_ORDER[k + 1], q, worlds[k], agents, a) == Some(worlds[k + 1]);
      assert worlds[k + 1..] == [worlds[k + 1]] + worlds[k + 2..];
    } else {
      assert worlds[k + 1..] == [];
    }
  }

  /** Invoking the built graph with protected nodes on a structured request leaves the worlds of the protected run. */
  lemma InvokeProtectedIsRun(edges: map<Vertex, Vertex>, q: Query, agents: Injected, a: Answers, worlds: seq<World>)
    requires Wired(edges) && IsProtectedRun(q, agents, a, worlds)
    ensures InvokeProtected(edges, q, agents, a) == Some(worlds)
  {
    PlannerComesFirst();
    hide NODE_ORDER, PlannerState, ProtectedStep, InitialState;
    FollowsWorlds(edges, q, agents, a, worlds, 0);
    assert worlds == [worlds[0]] + worlds[1..];
  }

  // ---------------------------------------------------------------- non-interference

  function Bare(e: Option<Envelope>): Option<Envelope> { if e.Some? then Some(e.value.(findings := [])) else None }

  /** The states differ at most in the findings of their results. */
  ghost predicate Alike(s: AgentState, t: AgentState) { s.(result := Bare(s.result)) == t.(result := Bare(t.result)) }

  lemma OwnIgnoresFindings(node: Node, s: AgentState, t: AgentState, env: Environment)
    requires Alike(s, t) && s.request.Some? && s.result.Some?
    ensures OwnUpdate(node, s, env) == OwnUpdate(node, t, env)
  {
    assert t.request == s.request && t.requiredAgents == s.requiredAgents && t.metrics == s.metrics;
    assert t.approvalInput == s.approvalInput;
    hide *;
    RecordsIgnoreFindings(s, t);
    UpdatesFromRecords(s, t, env);
    SameUpdates(node, s, t, env);
  }

  lemma SameUpdates(node: Node, s: AgentState, t: AgentState, env: Environment)
    requires t.requiredAgents == s.requiredAgents
    requires RiskAgent.Run(s, env.riskToolFails) == RiskAgent.Run(t, env.riskToolFails)
    requires DecisionAgent.Run(s, env.tools) == DecisionAgent.Run(t, env.tools)
    requires ApprovalAgent.Run(s) == ApprovalAgent.Run(t) && SummaryAgent.Run(s) == SummaryAgent.Run(t)
    ensures OwnUpdate(node, s, env) == OwnUpdate(node, t, env)
  {
    hide RiskAgent.Run, DecisionAgent.Run, ApprovalAgent.Run, SummaryAgent.Run;
  }

  lemma UpdatesFromRecords(s: AgentState, t: AgentState, env: Environment)
    requires s.request.Some? && t.request == s.request && t.metrics == s.metrics && t.approvalInput == s.approvalInput
    requires RiskAgent.AssessStructured(s) == RiskAgent.AssessStructured(t)
    requires DecisionAgent.DecideStructured(s) == DecisionAgent.DecideStructured(t)
    requires ApprovalAgent.Build(s) == ApprovalAgent.Build(t) && SummaryAgent.Build(s) == SummaryAgent.Build(t)
    ensures RiskAgent.Run(s, env.riskToolFails) == RiskAgent.Run(t, env.riskToolFails)
    ensures DecisionAgent.Run(s, env.tools) == DecisionAgent.Run(t, env.tools)
    ensures ApprovalAgent.Run(s) == ApprovalAgent.Run(t) && SummaryAgent.Run(s) == SummaryAgent.Run(t)
  {
    hide RiskAgent.AssessStructured, RiskAgent.Assess, RiskAgent.HasContext, DecisionAgent.DecideStructured,
      DecisionAgent.Decide, DecisionAgent.CallsOf, SummaryAgent.Build, ApprovalAgent.Build, ApprovalAgent.InputErrors;
  }

  lemma RecordsIgnoreFindings(s: AgentState, t: AgentState)
    requires Alike(s, t) && s.request.Some? && s.result.Some?
    ensures RiskAgent.AssessStructured(s) == RiskAgent.AssessStructured(t)
    ensures DecisionAgent.DecideStructured(s) == DecisionAgent.DecideStructured(t)
    ensures ApprovalAgent.Build(s) == ApprovalAgent.Build(t) && SummaryAgent.Build(s) == SummaryAgent.Build(t)
  {
    assert t.result.Some? && t.result.value.(findings := []) == s.result.value.(findings := []);
    assert t.risk == s.risk && t.decision == s.decision && t.approval == s.approval && t.citations == s.citations;
    hide Alike, RiskAgent.DiagnosticFactors, RiskAgent.SeverityDetails, ApprovalAgent.NormalizedStatus,
      ApprovalAgent.StatusNamed, SummaryAgent.StatusOf, SummaryAgent.SummaryCitations;
  }

  lemma TrustedAlike(s: AgentState, b: Envelope, t: AgentState, c: Envelope)
    requires Alike(s, t) && Bare(Some(b)) == Bare(Some(c))
    ensures Alike(Trusted(s, b), Trusted(t, c))
  {
    assert b.artifacts == c.artifacts;
    assert s.request == t.request;
  }

  lemma PublishedAlike(node: Node, w: World, agents: Injected, v: World, others: Injected, a: Answers)
    requires Settled(w, a) && Settled(v, a) && Alike(w.state, v.state)
    ensures Bare(Some(Published(node, w, agents, a))) == Bare(Some(Published(node, v, others, a)))
    ensures Own(node, w, a) == Own(node, v, a)
  {
    hide OwnUpdate, Conflicts, ArtifactCitations;
    var b, c := Canonical(node, w, a), Canonical(node, v, a);
    assert Bare(Some(b)) == Bare(Some(c));
    assert b.artifacts == c.artifacts;
    TrustedAlike(w.state, b, v.state, c);
    OwnIgnoresFindings(node, Trusted(w.state, b), Trusted(v.state, c), a.env);
  }

  lemma ApplyAlike(s: AgentState, u: Update, t: AgentState, v: Update)
    requires Alike(s, t) && u.(result := None) == v.(result := None)
    requires u.result.Some? && v.result.Some? && Bare(u.result) == Bare(v.result)
    ensures Alike(Apply(s, u), Apply(t, v))
  {
  }

  lemma LateAlike(node: Node, w: World, agents: Injected, v: World, others: Injected, a: Answers)
    requires Settled(w, a) && Settled(v, a) && Alike(w.state, v.state)
    ensures Alike(LateWorld(node, w, agents, a).state, LateWorld(node, v, others, a).state)
  {
    PublishedAlike(node, w, agents, v, others, a);
    hide Own, Published, Apply;
    var e, f := Published(node, w, agents, a), Published(node, v, others, a);
    assert e.artifacts == f.artifacts;
    ApplyAlike(w.state, PublishedUpdate(node, w.state, Own(node, w, a), e),
               v.state, PublishedUpdate(node, v.state, Own(node, v, a), f));
  }

  /**
   Injected agents have no influence: in any two runs of a request with the same answers of the service the
   states agree after every node in everything but the findings about rejected proposals.
   */
  lemma {:induction false} InjectedAgentsDoNotInterfere(q: Query, a: Answers, agents: Injected, worlds: seq<World>,
                                                        others: Injected, twins: seq<World>, k: nat)
    requires IsProtectedRun(q, agents, a, worlds) && IsProtectedRun(q, others, a, twins) && k < |NODE_ORDER|
    ensures Alike(worlds[k].state, twins[k].state)
  {
    hide ProtectedStep, PlannerState, Alike, LateWorld, Analyzed, Apply, Settled;
    if k == 0 {
      AlikeItself(worlds[0].state);
    } else {
      InjectedAgentsDoNotInterfere(q, a, agents, worlds, others, twins, k - 1);
      StepKinds(q, agents, a, worlds, k);
      StepKinds(q, others, a, twins, k);
      if k >= 3 {
        LateAlike(NODE_ORDER[k], worlds[k - 1], agents, twins[k - 1], others, a);
      } else {
        SameBeginnings(q, agents, a, worlds, others, twins, k);
        AlikeItself(worlds[k].state);
      }
    }
  }

  lemma AlikeItself(s: AgentState)
    ensures Alike(s, s)
  {
  }

  /** Up to the analysis no injected agent is asked. */
  lemma {:induction false} SameBeginnings(q: Query, agents: Injected, a: Answers, worlds: seq<World>, others: Injected,
                                          twins: seq<World>, k: nat)
    requires IsProtectedRun(q, agents, a, worlds) && IsProtectedRun(q, others, a, twins) && k < 3
    ensures worlds[k] == twins[k]
  {
    hide ProtectedStep, PlannerState, LateWorld, Analyzed, Apply, Settled;
    if k > 0 {
      SameBeginnings(q, agents, a, worlds, others, twins, k - 1);
      StepKinds(q, agents, a, worlds, k);
      StepKinds(q, others, a, twins, k);
    }
  }

  // ---------------------------------------------------------------- detection

  /** At node `k` an injected agent was asked and its proposal was rejected. */
  ghost predicate RejectedAt(k: int, worlds: seq<World>, agents: Injected, a: Answers) {
    && 3 < k < |worlds| <= |NODE_ORDER| && a.env.structured.analysisId in worlds[k - 1].results
    && Rejected(NODE_ORDER[k], worlds[k - 1], agents, a)
  }

  function Finding(node: Node): IntegrityFinding { IntegrityFinding(REJECTED_UPDATE, Known(node)) }

  lemma PublishedFindings(node: Node, w: World, agents: Injected, a: Answers)
    requires Settled(w, a)
    ensures var t := LateWorld(node, w, agents, a).state;
            && t.result.Some?
            && forall f :: f in t.result.value.findings <==>
                 f in w.state.result.value.findings || (f == Finding(node) && Rejected(node, w, agents, a))
  {
    hide Rejected, Own, ArtifactCitations;
  }

  lemma RejectedHere(k: nat, worlds: seq<World>, agents: Injected, a: Answers)
    requires 3 <= k < |worlds| <= |NODE_ORDER| && Settled(worlds[k - 1], a)
    ensures RejectedAt(k, worlds, agents, a) <==> Rejected(NODE_ORDER[k], worlds[k - 1], agents, a)
  {
    PositionInOrder(k);
    hide Own, Canonical, ArtifactCitations, Conflicts, NODE_ORDER;
  }

  lemma AnalyzedResult(w: World, a: Answers)
    ensures Analyzed(w, a).state.result == Some(a.env.structured)
  {
    hide ArtifactCitations;
  }

  /** The published result names exactly the nodes at which a proposal was rejected: no rejection is lost, none is invented. */
  lemma {:induction false} FindingsAreRejections(q: Query, agents: Injected, a: Answers, worlds: seq<World>, k: nat)
    requires IsProtectedRun(q, agents, a, worlds) && 2 <= k < |NODE_ORDER|
    ensures worlds[k].state.result.Some?
    ensures forall f :: f in worlds[k].state.result.value.findings <==>
              exists j :: 3 < j <= k && RejectedAt(j, worlds, agents, a) && f == Finding(NODE_ORDER[j])
  {
    hide ProtectedStep, PlannerState, LateWorld, Analyzed, Apply, Settled, Rejected, Finding;
    StepKinds(q, agents, a, worlds, k);
    if k == 2 {
      AnalyzedResult(worlds[1], a);
    } else {
      FindingsAreRejections(q, agents, a, worlds, k - 1);
      PublishedFindings(NODE_ORDER[k], worlds[k - 1], agents, a);
      RejectedHere(k, worlds, agents, a);
    }
  }

  /** The repository's own agents, injected. */
  function OwnAgents(env: Environment): Injected { (node, s) => Plainly(RunAgent(node, s, env)) }

  lemma TrustedIsTheState(node: Node, w: World, a: Answers)
    requires Settled(w, a) && Position(node) >= 4
    ensures Trusted(w.state, Canonical(node, w, a)) == w.state
  {
    hide ArtifactCitations;
  }

  lemma OwnIsRunAgent(node: Node, s: AgentState, env: Environment)
    requires Position(node) >= 4 && node in s.requiredAgents
    ensures OwnUpdate(node, s, env) == RunAgent(node, s, env)
  {
    hide RiskAgent.Run, DecisionAgent.Run, ApprovalAgent.Run, SummaryAgent.Run;
  }

  lemma AgreeingNeverConflicts(u: Update, canonical: Envelope)
    requires u.result == None
    ensures !Conflicts(Plainly(u), u, canonical)
  {
  }

  /** The repository's own agents are never rejected. */
  lemma OwnIsNotRejected(node: Node, w: World, a: Answers)
    requires Settled(w, a)
    ensures !Rejected(node, w, OwnAgents(a.env), a)
  {
    hide RunAgent, Conflicts, OwnUpdate, Canonical, Trusted;
    if Position(node) >= 4 && node in w.state.requiredAgents {
      TrustedIsTheState(node, w, a);
      OwnIsRunAgent(node, w.state, a.env);
      AgentBehaves(node, w.state, a.env);
      AgreeingNeverConflicts(RunAgent(node, w.state, a.env), Canonical(node, w, a));
    }
  }

  /** No false alarm: a run of the repository's own agents is published without findings. */
  lemma OwnAgentsAreNotFlagged(q: Query, a: Answers, worlds: seq<World>, k: nat)
    requires IsProtectedRun(q, OwnAgents(a.env), a, worlds) && 2 <= k < |NODE_ORDER|
    ensures worlds[k].state.result.Some? && worlds[k].state.result.value.findings == []
  {
    hide ProtectedStep, PlannerState, LateWorld, Analyzed, Apply, Settled, Rejected, Finding, OwnAgents;
    FindingsAreRejections(q, OwnAgents(a.env), a, worlds, k);
    forall j | 3 < j <= k ensures !RejectedAt(j, worlds, OwnAgents(a.env), a) {
      StepKinds(q, OwnAgents(a.env), a, worlds, j);
      RejectedHere(j, worlds, OwnAgents(a.env), a);
      OwnIsNotRejected(NODE_ORDER[j], worlds[j - 1], a);
    }
    SomeMember(worlds[k].state.result.value.findings);
  }

  lemma SomeMember<T>(items: seq<T>)
    ensures items != [] ==> exists item :: item in items
  {
    if items != [] {
      assert items[0] in items;
    }
  }

  // ---------------------------------------------------------------- the outcome

  predicate Eligible(e: Envelope) { e.status in {ResultCompleted, ResultInconclusive} }

  /** What the repository's own agents say of a result. */
  function RiskFrom(e: Envelope): Risk {
    var factors := RiskAgent.DiagnosticFactors(e.diagnostics);
    Risk(PartialAssessment, UnknownRisk, None, factors, [], RiskAgent.SeverityDetails(factors, RiskAgent.GRAVE),
         RiskAgent.SeverityDetails(factors, RiskAgent.CAUTIONARY), [], [],
         ["Analyzer diagnostics are preserved; operational risks need separate evidence."], [], UnknownConfidence)
  }

  function DecisionFrom(e: Envelope): Decision {
    Decision(if Eligible(e) then NeedsMoreDataStatus else Blocked, NeedsMoreData, UnknownConfidence,
             if Eligible(e) then [] else ["Analysis is unavailable or abstained."], false, [],
             ["No rollout authorization follows from statistical or monetary effect alone."])
  }

  function SummaryFrom(e: Envelope, request: Option<AnalysisRequest>): Summary {
    Summary(if Eligible(e) then Generated else SummaryInsufficient, AnalyzerHeadline(e.analysisMethod, e.status),
            NoAutomaticRollout, UnknownConfidence, ArtifactCitations(e, request))
  }

  const NOTHING_TO_APPROVE := Approval(SkippedApproval, false, "", None)

  /** The service's result at node `k`, findings apart. */
  function EnvelopeAt(q: Query, a: Answers, k: nat): Envelope {
    if k >= 3 && BusinessImpact in PlannedAgents(q) then WithBusiness(a.env.structured, a.business) else a.env.structured
  }

  /** The records of a state that the response shows. */
  datatype Records = Records(
    analysis: Analysis, impact: Impact, chunks: seq<Chunk>, stateMetrics: seq<Metric>, toolCalls: seq<ToolCall>,
    risk: Risk, decision: Decision, approval: Approval, summary: Summary, errors: seq<ErrorRecord>)

  function RecordsOf(s: AgentState): Records {
    Records(s.analysis, s.impact, s.chunks, s.stateMetrics, s.toolCalls, s.risk, s.decision, s.approval, s.summary, s.errors)
  }

  /** What the repository's own agent at a node makes of the records, given the service's result. */
  function Written(r: Records, node: Node, e: Envelope, q: Query): Records {
    match node
    case RiskAssessment => r.(risk := RiskFrom(e))
    case DecisionMaking => r.(decision := DecisionFrom(e))
    case HumanApproval => r.(approval := NOTHING_TO_APPROVE, errors := r.errors + ApprovalAgent.InputErrors(q.approvalInput))
    case ExecutiveSummary => r.(summary := SummaryFrom(e, q.request))
    case _ => r
  }

  const BLANK := Records(NO_ANALYSIS, NO_IMPACT, [], [], [], NO_RISK, NO_DECISION, NO_APPROVAL, NO_SUMMARY, [])

  /** The records once node `k` has run. */
  function RecordsAt(q: Query, a: Answers, k: nat): Records
    requires k < |NODE_ORDER|
  {
    if k < 3 then BLANK
    else if NODE_ORDER[k] in PlannedAgents(q) then Written(RecordsAt(q, a, k - 1), NODE_ORDER[k], EnvelopeAt(q, a, k), q)
    else RecordsAt(q, a, k - 1)
  }

  ghost predicate Holds(q: Query, a: Answers, s: AgentState, k: nat)
    requires k < |NODE_ORDER|
  {
    RecordsOf(s) == RecordsAt(q, a, k) && Bare(s.result) == if k >= 2 then Bare(Some(EnvelopeAt(q, a, k))) else None
  }

  /** What the own agents say of a state that holds nothing else. */
  lemma OwnRecords(s: AgentState, e: Envelope)
    requires s.request.Some? && s.result.Some? && Bare(s.result) == Bare(Some(e))
    ensures s.risk == NO_RISK ==> RiskAgent.AssessStructured(s) == RiskFrom(e)
    ensures s.decision == NO_DECISION && s.approval == NO_APPROVAL ==> DecisionAgent.DecideStructured(s) == DecisionFrom(e)
    ensures !s.decision.approvalRequired ==> ApprovalAgent.Build(s) == NOTHING_TO_APPROVE
    ensures s.citations == ArtifactCitations(e, s.request) ==> SummaryAgent.Build(s) == SummaryFrom(e, s.request)
  {
    assert s.result.value.(findings := []) == e.(findings := []);
    hide RiskAgent.DiagnosticFactors, RiskAgent.SeverityDetails, ApprovalAgent.NormalizedStatus,
      ApprovalAgent.StatusNamed, SummaryAgent.StatusOf, SummaryAgent.SummaryCitations, ArtifactCitations;
  }

  /** Applying an update, as far as the records go. */
  function Over(r: Records, u: Update): Records {
    Records(OrElse(u.analysis, r.analysis), OrElse(u.impact, r.impact), OrElse(u.chunks, r.chunks),
            OrElse(u.stateMetrics, r.stateMetrics), r.toolCalls + u.toolCalls, OrElse(u.risk, r.risk),
            OrElse(u.decision, r.decision), OrElse(u.approval, r.approval), OrElse(u.summary, r.summary), r.errors + u.errors)
  }

  /** The records that the own agents write. */
  lemma OwnWrites(node: Node, s: AgentState, e: Envelope, env: Environment, r: Records, q: Query)
    requires s.request.Some? && s.request == q.request && s.approvalInput == q.approvalInput && Position(node) >= 3
    requires node == RiskAssessment ==> RiskAgent.AssessStructured(s) == RiskFrom(e)
    requires node == DecisionMaking ==> DecisionAgent.DecideStructured(s) == DecisionFrom(e)
    requires node == HumanApproval ==> ApprovalAgent.Build(s) == NOTHING_TO_APPROVE
    requires node == ExecutiveSummary ==> SummaryAgent.Build(s) == SummaryFrom(e, s.request)
    ensures Over(r, OwnUpdate(node, s, env)) == if node in s.requiredAgents then Written(r, node, e, q) else r
  {
    hide RiskAgent.AssessStructured, RiskAgent.Assess, RiskAgent.HasContext, DecisionAgent.DecideStructured,
      DecisionAgent.Decide, DecisionAgent.CallsOf, SummaryAgent.Build, ApprovalAgent.Build, ApprovalAgent.InputErrors,
      RiskFrom, DecisionFrom, SummaryFrom;
  }

  lemma LateRecords(node: Node, w: World, agents: Injected, a: Answers)
    requires Settled(w, a)
    ensures RecordsOf(LateWorld(node, w, agents, a).state) == Over(RecordsOf(w.state), Own(node, w, a))
    ensures Bare(LateWorld(node, w, agents, a).state.result) == Bare(Some(Canonical(node, w, a)))
  {
    hide Own, Conflicts, ArtifactCitations, WithBusiness;
  }

  lemma CanonicalAt(q: Query, a: Answers, w: World, k: nat)
    requires 3 <= k < |NODE_ORDER| && Settled(w, a) && Planned(q, w.state) && Bare(w.state.result) == Bare(Some(EnvelopeAt(q, a, k - 1)))
    ensures Bare(Some(Canonical(NODE_ORDER[k], w, a))) == Bare(Some(EnvelopeAt(q, a, k)))
  {
    hide PlannedAgents, ArtifactCitations, OtherArtifacts;
  }

  /** The records that nodes further on write are still blank. */
  lemma {:induction false} BlankSoFar(q: Query, a: Answers, k: nat)
    requires 2 <= k < |NODE_ORDER|
    ensures var r := RecordsAt(q, a, k);
            && (k < 4 ==> r.risk == NO_RISK) && (k < 5 ==> r.decision == NO_DECISION) && (k < 6 ==> r.approval == NO_APPROVAL)
            && !r.decision.approvalRequired
  {
    hide PlannedAgents, RiskFrom, SummaryFrom, EnvelopeAt;
    if k > 2 {
      BlankSoFar(q, a, k - 1);
      PositionInOrder(k);
    }
  }

  /** The trusted state of a node is the planned one with the service's result and the records so far. */
  lemma TrustedAt(q: Query, a: Answers, w: World, k: nat)
    requires 3 <= k < |NODE_ORDER| && Settled(w, a) && Planned(q, w.state) && Holds(q, a, w.state, k - 1)
    ensures var trusted := Trusted(w.state, Canonical(NODE_ORDER[k], w, a));
            && trusted.request == q.request && trusted.approvalInput == q.approvalInput && trusted.result.Some?
            && trusted.requiredAgents == PlannedAgents(q) && Bare(trusted.result) == Bare(Some(EnvelopeAt(q, a, k)))
            && trusted.citations == ArtifactCitations(EnvelopeAt(q, a, k), trusted.request)
            && RecordsOf(trusted) == RecordsAt(q, a, k - 1)
  {
    CanonicalAt(q, a, w, k);
    assert Canonical(NODE_ORDER[k], w, a).artifacts == EnvelopeAt(q, a, k).artifacts;
    hide Canonical, EnvelopeAt, RecordsAt, ArtifactCitations, NODE_ORDER, PlannedAgents;
  }

  /** What the own agent asked at a node writes into the records. */
  lemma OwnRecordsAt(q: Query, a: Answers, s: AgentState, k: nat)
    requires q.request.Some? && 3 <= k < |NODE_ORDER|
    requires s.request == q.request && s.approvalInput == q.approvalInput && s.requiredAgents == PlannedAgents(q)
    requires s.result.Some? && Bare(s.result) == Bare(Some(EnvelopeAt(q, a, k)))
    requires s.citations == ArtifactCitations(EnvelopeAt(q, a, k), s.request) && RecordsOf(s) == RecordsAt(q, a, k - 1)
    ensures Over(RecordsAt(q, a, k - 1), OwnUpdate(NODE_ORDER[k], s, a.env)) == RecordsAt(q, a, k)
  {
    var node, e := NODE_ORDER[k], EnvelopeAt(q, a, k);
    PositionInOrder(k);
    BlankSoFar(q, a, k - 1);
    assert s.risk == RecordsOf(s).risk && s.decision == RecordsOf(s).decision && s.approval == RecordsOf(s).approval;
    assert RecordsAt(q, a, k) == if node in PlannedAgents(q) then Written(RecordsAt(q, a, k - 1), node, e, q)
                                 else RecordsAt(q, a, k - 1);
    KindOf(k);
    hide *;
    OwnRecords(s, e);
    OwnWrites(node, s, e, a.env, RecordsAt(q, a, k - 1), q);
  }

  lemma KindOf(k: nat)
    requires 3 <= k < |NODE_ORDER|
    ensures NODE_ORDER[k] == RiskAssessment ==> k == 4
    ensures NODE_ORDER[k] == DecisionMaking ==> k == 5
    ensures NODE_ORDER[k] == HumanApproval ==> k == 6
  {
  }

  lemma HoldsNext(q: Query, a: Answers, agents: Injected, w: World, k: nat)
    requires q.request.Some? && 3 <= k < |NODE_ORDER| && Settled(w, a) && Planned(q, w.state) && Holds(q, a, w.state, k - 1)
    ensures Holds(q, a, LateWorld(NODE_ORDER[k], w, agents, a).state, k)
  {
    var node := NODE_ORDER[k];
    TrustedAt(q, a, w, k);
    CanonicalAt(q, a, w, k);
    LateRecords(node, w, agents, a);
    assert Own(node, w, a) == OwnUpdate(node, Trusted(w.state, Canonical(node, w, a)), a.env);
    hide RecordsOf, RecordsAt, Over, OwnUpdate, Own, LateWorld, Trusted, EnvelopeAt, Settled, Planned, PlannedAgents,
      NODE_ORDER, Canonical, ArtifactCitations, Bare;
    OwnRecordsAt(q, a, Trusted(w.state, Canonical(node, w, a)), k);
  }

  lemma PlannerRecords(q: Query)
    ensures RecordsOf(PlannerState(q)) == BLANK
  {
    hide PlannedAgents;
  }

  lemma SkipRecords(s: AgentState)
    ensures RecordsOf(Apply(s, SkippedUpdate(Retrieval))) == RecordsOf(s)
  {
  }

  lemma AnalyzedRecords(w: World, a: Answers)
    ensures RecordsOf(Analyzed(w, a).state) == RecordsOf(w.state)
  {
    hide ArtifactCitations;
  }

  lemma {:induction false} HoldsInRun(q: Query, agents: Injected, a: Answers, worlds: seq<World>, k: nat)
    requires IsProtectedRun(q, agents, a, worlds) && k < |NODE_ORDER|
    ensures k < 2 ==> RecordsOf(worlds[k].state) == BLANK
    ensures k >= 2 ==> Holds(q, a, worlds[k].state, k)
  {
    hide ProtectedStep, PlannerState, PlannedAgents, LateWorld, Analyzed, Apply, Settled, RecordsOf, NODE_ORDER, BLANK, Planned;
    if k == 0 {
      PlannerRecords(q);
    } else {
      HoldsInRun(q, agents, a, worlds, k - 1);
      StepKinds(q, agents, a, worlds, k);
      if k == 1 {
        SkipRecords(worlds[0].state);
      } else if k == 2 {
        AnalyzedRecords(worlds[1], a);
        AnalyzedResult(worlds[1], a);
      } else {
        WorldStands(q, agents, a, worlds, k - 1);
        HoldsNext(q, a, agents, worlds[k - 1], k);
      }
    }
  }

  /** What the repository's own agents up to node `k` write for a result. */
  function Outcome(q: Query, e: Envelope, k: nat): Records {
    var plan := PlannedAgents(q);
    Records(NO_ANALYSIS, NO_IMPACT, [], [], [],
            if k >= 4 && RiskAssessment in plan then RiskFrom(e) else NO_RISK,
            if k >= 5 && DecisionMaking in plan then DecisionFrom(e) else NO_DECISION,
            if k >= 6 && HumanApproval in plan then NOTHING_TO_APPROVE else NO_APPROVAL,
            if k >= 7 then SummaryFrom(e, q.request) else NO_SUMMARY,
            if k >= 6 && HumanApproval in plan then ApprovalAgent.InputErrors(q.approvalInput) else [])
  }

  lemma {:induction false} OutcomeAt(q: Query, a: Answers, k: nat)
    requires q.request.Some? && 3 <= k < |NODE_ORDER|
    ensures RecordsAt(q, a, k) == Outcome(q, EnvelopeAt(q, a, k), k)
  {
    RecordsStep(q, a, k);
    assert k > 3 ==> WrittenAt(q, EnvelopeAt(q, a, k), k, NODE_ORDER[k]) by {
      if k > 3 {
        OutcomeStep(q, EnvelopeAt(q, a, k), k);
      }
    }
    hide Outcome, RecordsAt, EnvelopeAt, PlannedAgents, NODE_ORDER, Written, BLANK;
    if k == 3 {
      OutcomeStarts(q, EnvelopeAt(q, a, 3));
    } else {
      OutcomeAt(q, a, k - 1);
      EnvelopeStays(q, a, k);
    }
  }

  lemma RecordsStep(q: Query, a: Answers, k: nat)
    requires 3 <= k < |NODE_ORDER|
    ensures RecordsAt(q, a, k) == if NODE_ORDER[k] in PlannedAgents(q)
                                  then Written(RecordsAt(q, a, k - 1), NODE_ORDER[k], EnvelopeAt(q, a, k), q)
                                  else RecordsAt(q, a, k - 1)
    ensures k == 3 ==> RecordsAt(q, a, k) == BLANK
  {
    KindExactly(k);
    hide PlannedAgents, EnvelopeAt, RiskFrom, DecisionFrom, SummaryFrom, ApprovalAgent.InputErrors, NODE_ORDER, BLANK;
  }

  lemma OutcomeStarts(q: Query, e: Envelope)
    ensures Outcome(q, e, 3) == BLANK
  {
    hide PlannedAgents, RiskFrom, DecisionFrom, SummaryFrom, ApprovalAgent.InputErrors;
  }

  /** Writing node `k`'s record, if it is asked. */
  predicate WrittenAt(q: Query, e: Envelope, k: nat, node: Node)
    requires k > 0
  {
    Outcome(q, e, k) == if node in PlannedAgents(q) then Written(Outcome(q, e, k - 1), node, e, q) else Outcome(q, e, k - 1)
  }

  lemma RiskWritten(q: Query, e: Envelope)
    ensures WrittenAt(q, e, 4, RiskAssessment)
  {
    hide PlannedAgents, RiskFrom, DecisionFrom, SummaryFrom, ApprovalAgent.InputErrors;
  }

  lemma DecisionWritten(q: Query, e: Envelope)
    ensures WrittenAt(q, e, 5, DecisionMaking)
  {
    hide PlannedAgents, RiskFrom, DecisionFrom, SummaryFrom, ApprovalAgent.InputErrors;
  }

  lemma ApprovalWritten(q: Query, e: Envelope)
    ensures WrittenAt(q, e, 6, HumanApproval)
  {
    hide PlannedAgents, RiskFrom, DecisionFrom, SummaryFrom, ApprovalAgent.InputErrors;
    assert [] + ApprovalAgent.InputErrors(q.approvalInput) == ApprovalAgent.InputErrors(q.approvalInput);
  }

  lemma SummaryWritten(q: Query, e: Envelope)
    requires ExecutiveSummary in PlannedAgents(q)
    ensures WrittenAt(q, e, 7, ExecutiveSummary)
  {
    hide PlannedAgents, RiskFrom, DecisionFrom, SummaryFrom, ApprovalAgent.InputErrors;
  }

  lemma OutcomeStep(q: Query, e: Envelope, k: nat)
    requires q.request.Some? && 4 <= k < |NODE_ORDER|
    ensures WrittenAt(q, e, k, NODE_ORDER[k])
  {
    hide *;
    StructuredPlanSchedulesSummary(q);
    KindExactly(k);
    match k
    case 4 => RiskWritten(q, e);
    case 5 => DecisionWritten(q, e);
    case 6 => ApprovalWritten(q, e);
    case _ => SummaryWritten(q, e);
  }

  lemma KindExactly(k: nat)
    requires 3 <= k < |NODE_ORDER|
    ensures NODE_ORDER[k] == match k case 3 => BusinessImpact case 4 => RiskAssessment case 5 => DecisionMaking
                                     case 6 => HumanApproval case _ => ExecutiveSummary
    ensures |NODE_ORDER| == 8
  {
  }

  lemma StructuredPlanSchedulesSummary(q: Query)
    requires q.request.Some?
    ensures ExecutiveSummary in PlannedAgents(q)
  {
  }

  lemma EnvelopeStays(q: Query, a: Answers, k: nat)
    requires 4 <= k
    ensures EnvelopeAt(q, a, k) == EnvelopeAt(q, a, k - 1)
  {
    hide PlannedAgents, WithBusiness;
  }

  /**
   The outcome of a structured request is a function of the request and the service's answers: whatever is
   injected, the evidence is the service's, risk, decision and summary are what the repository's own agents say
   of it, no rollout is recommended and no approval asked for, and every other record stays blank.
   */
  lemma StructuredOutcome(q: Query, agents: Injected, a: Answers, worlds: seq<World>)
    requires IsProtectedRun(q, agents, a, worlds)
    ensures |worlds| == 8
    ensures var s, e := worlds[7].state, EnvelopeAt(q, a, 7);
            && s.result.Some? && s.result.value.(findings := []) == e.(findings := [])
            && s.citations == ArtifactCitations(e, q.request) && RecordsOf(s) == Outcome(q, e, 7)
            && s.decision.recommendation in {NeedsMoreData, UnknownRecommendation} && !s.approval.required
  {
    var k := |NODE_ORDER| - 1;
    assert k == 7;
    hide ProtectedStep, PlannerState, PlannedAgents, ArtifactCitations, EnvelopeAt, RiskFrom, SummaryFrom, RecordsAt,
      ApprovalAgent.InputErrors, NODE_ORDER, Outcome, RecordsOf, Settled;
    OutcomeAt(q, a, k);
    HoldsInRun(q, agents, a, worlds, k);
    WorldStands(q, agents, a, worlds, k);
    SettledHasResult(worlds[k], a);
    SameArtifacts(worlds[k], a, EnvelopeAt(q, a, k));
    NoRollout(worlds[k].state, q, EnvelopeAt(q, a, k));
  }

  lemma SettledHasResult(w: World, a: Answers)
    requires Settled(w, a)
    ensures w.state.result.Some?
  {
  }

  lemma NoRollout(s: AgentState, q: Query, e: Envelope)
    requires RecordsOf(s) == Outcome(q, e, 7)
    ensures s.decision.recommendation in {NeedsMoreData, UnknownRecommendation} && !s.approval.required
  {
    hide PlannedAgents, RiskFrom, SummaryFrom, ApprovalAgent.InputErrors;
    assert s.decision == RecordsOf(s).decision && s.approval == RecordsOf(s).approval;
  }

  lemma SameArtifacts(w: World, a: Answers, e: Envelope)
    requires Settled(w, a) && Bare(w.state.result) == Bare(Some(e))
    ensures w.state.citations == ArtifactCitations(e, w.state.request)
  {
    assert w.state.result.value.(findings := []) == e.(findings := []);
    assert w.state.result.value.artifacts == e.artifacts;
  }

  /** The response shows the service's own result: after a run the last check finds nothing. */
  lemma ResponseIsPublished(q: Query, agents: Injected, a: Answers, worlds: seq<World>)
    requires IsProtectedRun(q, agents, a, worlds)
    ensures |worlds| == 8 && Response(worlds[7].state, worlds[7].results) == Some((worlds[7].state, worlds[7].results))
  {
    assert |NODE_ORDER| == 8;
    hide *;
    WorldStands(q, agents, a, worlds, 7);
    SettledResponds(q, worlds[7], a);
  }

  lemma SettledResponds(q: Query, w: World, a: Answers)
    requires Stands(q, a, w, 7)
    ensures Response(w.state, w.results) == Some((w.state, w.results))
  {
    hide ArtifactCitations, PlannedAgents;
    var id := a.env.structured.analysisId;
    assert w.results[id := w.results[id]] == w.results;
    assert w.state.(result := Some(w.results[id])) == w.state;
  }

  // ---------------------------------------------------------------- the trace

  lemma PublishedTraceOf(node: Node, w: World, agents: Injected, a: Answers)
    requires a.env.structured.analysisId in w.results
    ensures LateWorld(node, w, agents, a).state.trace
         == w.state.trace + [TraceEntry(node, StartedEvent),
                             TraceEntry(node, if node in w.state.requiredAgents then CompletedEvent else SkippedEvent)]
  {
    hide Own, Published, ArtifactCitations;
  }

  lemma EarlyTraces(w: World, a: Answers)
    ensures Apply(w.state, SkippedUpdate(Retrieval)).trace == w.state.trace + [TraceEntry(Retrieval, SkippedEvent)]
    ensures ExperimentAnalysis in w.state.requiredAgents ==>
              Analyzed(w, a).state.trace
              == w.state.trace + [TraceEntry(ExperimentAnalysis, StartedEvent), TraceEntry(ExperimentAnalysis, CompletedEvent)]
  {
    hide ArtifactCitations;
  }

  lemma SettledIsHeld(w: World, a: Answers)
    requires Settled(w, a)
    ensures a.env.structured.analysisId in w.results
  {
  }

  lemma PlanOfStanding(q: Query, a: Answers, w: World, k: nat)
    requires Stands(q, a, w, k)
    ensures w.state.requiredAgents == PlannedAgents(q)
  {
    hide PlannedAgents, Settled;
  }

  /** Whatever is injected, retrieval is skipped, and every other node is traced as started, and then completed or skipped by the plan. */
  lemma ProtectedTrace(q: Query, agents: Injected, a: Answers, worlds: seq<World>, k: nat)
    requires IsProtectedRun(q, agents, a, worlds) && 0 < k < |NODE_ORDER|
    ensures var node, before, after := NODE_ORDER[k], worlds[k - 1].state, worlds[k].state;
            after.trace == before.trace
              + if node == Retrieval then [TraceEntry(Retrieval, SkippedEvent)]
                else [TraceEntry(node, StartedEvent), TraceEntry(node, if node in PlannedAgents(q) then CompletedEvent else SkippedEvent)]
  {
    assert NODE_ORDER[1] == Retrieval && NODE_ORDER[2] == ExperimentAnalysis;
    PositionInOrder(k);
    assert k != 1 ==> NODE_ORDER[k] != Retrieval;
    hide ProtectedStep, PlannerState, PlannedAgents, LateWorld, Analyzed, Apply, Settled, Stands, NODE_ORDER;
    StepKinds(q, agents, a, worlds, k);
    WorldStands(q, agents, a, worlds, k - 1);
    PlanOfStanding(q, a, worlds[k - 1], k - 1);
    EarlyTraces(worlds[k - 1], a);
    if k == 2 {
      AnalysisPlanned(q);
    } else if k > 2 {
      SettledIsHeld(worlds[k - 1], a);
      PublishedTraceOf(NODE_ORDER[k], worlds[k - 1], agents, a);
    }
  }

  lemma AnalysisPlanned(q: Query)
    requires q.request.Some?
    ensures ExperimentAnalysis in PlannedAgents(q)
  {
  }
}
