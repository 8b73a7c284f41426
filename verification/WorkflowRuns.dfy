/** What holds of every run of the agent workflow, whatever the services and tools answer. */
module WorkflowRuns {
  import opened Text
  import opened MetricStore
  import opened AgentStates
  import opened Workflow
  import opened Guardrail
  import AnalysisAgent = ExperimentAnalysisAgent
  import ImpactAgent = BusinessImpactAgent
  import RiskAgent = RiskAssessmentAgent
  import DecisionAgent
  import ApprovalAgent = HumanApprovalAgent
  import SummaryAgent = ExecutiveSummaryAgent

  // ---------------------------------------------------------------- one node's update

  /** Every field of the state has one node that writes it; the envelope has two. */
  ghost predicate FieldsOwned(node: Node, u: Update) {
    && (u.chunks.Some? || u.citations.Some? ==> node == Retrieval)
    && (u.analysis.Some? || u.metadata.Some? || u.stateMetrics.Some? ==> node == ExperimentAnalysis)
    && (u.result.Some? ==> node in {ExperimentAnalysis, BusinessImpact})
    && (u.impact.Some? ==> node == BusinessImpact)
    && (u.risk.Some? ==> node == RiskAssessment)
    && (u.decision.Some? ==> node == DecisionMaking)
    && (u.approval.Some? ==> node == HumanApproval)
    && (u.summary.Some? ==> node == ExecutiveSummary)
  }

  /** A node logs under its own name, and always leaves a trace. */
  ghost predicate LogsOwned(node: Node, u: Update) {
    && u.trace != []
    && (forall t :: t in u.trace ==> t.node == node)
    && (forall c :: c in u.toolCalls ==> c.author == Known(node))
    && (forall e :: e in u.errors ==> e.author == Known(node))
  }

  /** The metrics are the state's own with the node's key set and nothing else changed. */
  ghost predicate Extends(node: Node, s: AgentState, metrics: map<MetricKey, MetricEntry>) {
    NodeKey(node) in metrics && metrics == s.metrics[NodeKey(node) := metrics[NodeKey(node)]]
  }

  /** Merged into the state's metrics, an agent's metrics extend them. */
  ghost predicate MetricsOwned(node: Node, s: AgentState, u: Update) {
    u.metrics.Some? ==> Extends(node, s, s.metrics + u.metrics.value)
  }

  ghost predicate WellBehaved(node: Node, s: AgentState, u: Update) {
    FieldsOwned(node, u) && LogsOwned(node, u) && MetricsOwned(node, s, u)
  }

  lemma RetrievalAgentBehaves(s: AgentState, answer: RetrievalAnswer)
    ensures WellBehaved(Retrieval, s, RunRetrieval(s, answer))
  {
  }

  lemma AnalysisAgentBehaves(s: AgentState, answer: AnalysisAgent.RepositoryAnswer, structured: Envelope)
    ensures WellBehaved(ExperimentAnalysis, s, AnalysisAgent.Run(s, answer, structured))
  {
    hide AnalysisAgent.AnalysisOf, AnalysisAgent.MatchingCitations, AnalysisAgent.UNRESOLVED_NOTE,
      AnalysisAgent.NO_CITATIONS_NOTE;
  }

  lemma ImpactCalls(s: AgentState, p: ImpactAgent.ImpactInputs)
    ensures var o := ImpactAgent.Build(s, p);
            o.Ok? ==> forall c :: c in o.value.1 ==> c.author == Known(BusinessImpact)
  {
    hide ImpactAgent.Values, ImpactAgent.ZERO_BASELINE_NOTE, ImpactAgent.OBSERVED_ONLY_NOTE,
      ImpactAgent.NO_ESTIMATE_NOTE, ImpactAgent.NO_ANNUALIZED_NOTE;
  }

  lemma ImpactAgentBehaves(s: AgentState, p: ImpactAgent.ImpactInputs)
    ensures WellBehaved(BusinessImpact, s, ImpactAgent.Run(s, p))
  {
    ImpactCalls(s, p);
    hide ImpactAgent.Build;
  }

  lemma RiskAgentBehaves(s: AgentState, toolFails: bool)
    ensures WellBehaved(RiskAssessment, s, RiskAgent.Run(s, toolFails))
  {
    hide RiskAgent.Assess, RiskAgent.AssessStructured, RiskAgent.HasContext;
  }

  lemma DecisionAgentBehaves(s: AgentState, tools: DecisionAgent.ToolAnswers)
    ensures WellBehaved(DecisionMaking, s, DecisionAgent.Run(s, tools))
  {
    hide DecisionAgent.Decide, DecisionAgent.DecideStructured;
  }

  lemma ClosingAgentsBehave(s: AgentState)
    ensures WellBehaved(HumanApproval, s, ApprovalAgent.Run(s))
    ensures WellBehaved(ExecutiveSummary, s, SummaryAgent.Run(s))
  {
    hide ApprovalAgent.Build, ApprovalAgent.NormalizedStatus, ApprovalAgent.StatusNamed, SummaryAgent.Build;
  }

  lemma AgentBehaves(node: Node, s: AgentState, env: Environment)
    requires node != Planner
    ensures WellBehaved(node, s, RunAgent(node, s, env))
  {
    RetrievalAgentBehaves(s, env.retrieval);
    AnalysisAgentBehaves(s, env.repository, env.structured);
    ImpactAgentBehaves(s, env.impact);
    RiskAgentBehaves(s, env.riskToolFails);
    DecisionAgentBehaves(s, env.tools);
    ClosingAgentsBehave(s);
    hide WellBehaved, RunRetrieval, AnalysisAgent.Run, ImpactAgent.Run, RiskAgent.Run, DecisionAgent.Run,
      ApprovalAgent.Run, SummaryAgent.Run;
  }

  ghost predicate MergedUpdate(node: Node, s: AgentState, u: Update) {
    FieldsOwned(node, u) && LogsOwned(node, u) && (u.metrics.Some? ==> Extends(node, s, u.metrics.value))
  }

  lemma MergeBehaves(node: Node, s: AgentState, u: Update)
    requires WellBehaved(node, s, u)
    ensures MergedUpdate(node, s, MergeMetrics(s, u))
  {
    hide Extends;
  }

  lemma SkipBehaves(node: Node, s: AgentState)
    ensures MergedUpdate(node, s, SkippedUpdate(node))
  {
  }

  /** Agents that write their own fields, logs and metrics only. */
  ghost predicate Behave(agents: Agents) {
    forall node: Node, s: AgentState :: node != Planner ==> WellBehaved(node, s, agents(node, s))
  }

  /** The repository's agents behave, whatever the services and tools answer. */
  lemma DefaultAgentsBehave(env: Environment)
    ensures Behave(DefaultAgents(env))
  {
    forall node: Node, s: AgentState | node != Planner ensures WellBehaved(node, s, DefaultAgents(env)(node, s)) {
      hide WellBehaved, RunAgent;
      AgentBehaves(node, s, env);
    }
  }

  /** The wrapper keeps what the agent promises, and makes the metrics an extension of the state's. */
  lemma NodeBehaves(node: Node, s: AgentState, agents: Agents)
    requires node != Planner && Behave(agents)
    ensures MergedUpdate(node, s, NodeUpdate(node, s, agents))
  {
    SkipBehaves(node, s);
    hide WellBehaved, MergeMetrics, MergedUpdate, SkippedUpdate;
    MergeBehaves(node, s, agents(node, s));
  }

  // ---------------------------------------------------------------- whole runs

  function Position(node: Node): nat {
    match node
    case Planner => 0
    case Retrieval => 1
    case ExperimentAnalysis => 2
    case BusinessImpact => 3
    case RiskAssessment => 4
    case DecisionMaking => 5
    case HumanApproval => 6
    case ExecutiveSummary => 7
  }

  lemma PositionInOrder(k: nat)
    requires k < |NODE_ORDER|
    ensures Position(NODE_ORDER[k]) == k
  {
  }

  lemma {:induction false} ExecuteSteps(s: AgentState, nodes: seq<Node>, agents: Agents, k: nat)
    requires k <= |nodes|
    ensures var states := Execute(s, nodes, agents);
            |states| == |nodes| + 1 && states[0] == s
            && (k > 0 ==> states[k] == Apply(states[k - 1], NodeUpdate(nodes[k - 1], states[k - 1], agents)))
    decreases nodes
  {
    hide Apply, NodeUpdate;
    if nodes != [] {
      ExecuteSteps(Apply(s, NodeUpdate(nodes[0], s, agents)), nodes[1..], agents, if k > 0 then k - 1 else 0);
    }
  }

  /** Every query has exactly one run, and it is the one the workflow executes. */
  lemma {:induction false} RunsAreExecutions(q: Query, agents: Agents, states: seq<AgentState>)
    ensures IsRun(q, agents, states) <==> states == Run(q, agents)
  {
    hide PlannerState, NodeUpdate, Apply, Execute;
    var run := Run(q, agents);
    var nodes := NODE_ORDER[1..];
    forall k: nat | k <= |nodes| ensures |run| == |NODE_ORDER| && run[0] == PlannerState(q) && (k > 0 ==> Stepped(agents, run, k)) {
      ExecuteSteps(PlannerState(q), nodes, agents, k);
    }
    assert |run| == |NODE_ORDER| && run[0] == PlannerState(q) by { ExecuteSteps(PlannerState(q), nodes, agents, 0); }
    assert IsRun(q, agents, run);
    if IsRun(q, agents, states) {
      RunsAgree(q, agents, states, run, |run| - 1);
      assert states[..|run|] == states && run[..|run|] == run;
    }
  }

  /** The runs are what the built graph does when it is invoked. */
  lemma RunsFollowTheGraph(edges: map<Vertex, Vertex>, q: Query, agents: Agents, states: seq<AgentState>)
    requires Wired(edges)
    ensures IsRun(q, agents, states) <==> Invoke(edges, q, agents) == Some(states)
  {
    hide *;
    InvokeIsRun(edges, q, agents);
    RunsAreExecutions(q, agents, states);
  }

  lemma {:induction false} RunsAgree(q: Query, agents: Agents, a: seq<AgentState>, b: seq<AgentState>, k: nat)
    requires IsRun(q, agents, a) && IsRun(q, agents, b) && k < |NODE_ORDER|
    ensures a[..k + 1] == b[..k + 1]
  {
    hide PlannerState, NodeUpdate, Apply, NODE_ORDER;
    if k > 0 {
      RunsAgree(q, agents, a, b, k - 1);
      assert a[k - 1] == a[..k][k - 1] == b[..k][k - 1] == b[k - 1];
      assert Stepped(agents, a, k) && Stepped(agents, b, k);
      assert a[..k + 1] == a[..k] + [a[k]] && b[..k + 1] == b[..k] + [b[k]];
    }
  }

  /** The step that leads to state `k`. */
  lemma StepInto(q: Query, agents: Agents, states: seq<AgentState>, k: nat)
    requires IsRun(q, agents, states) && 0 < k < |NODE_ORDER|
    ensures states[k] == Apply(states[k - 1], NodeUpdate(NODE_ORDER[k], states[k - 1], agents))
  {
    hide PlannerState, NodeUpdate, Apply, NODE_ORDER;
    assert Stepped(agents, states, k);
  }

  /** What the nodes up to `j` left in `a` is still there in `b`: fields kept, logs extended, metrics kept. */
  ghost predicate Kept(j: nat, a: AgentState, b: AgentState) {
    && a.request == b.request && a.intent == b.intent && a.requiredAgents == b.requiredAgents
    && a.hints == b.hints && a.experimentIds == b.experimentIds && a.approvalInput == b.approvalInput
    && (j >= 1 ==> a.chunks == b.chunks && a.citations == b.citations)
    && (j >= 2 ==> a.analysis == b.analysis && a.metadata == b.metadata && a.stateMetrics == b.stateMetrics)
    && (j >= 3 ==> a.impact == b.impact && a.result == b.result)
    && (j >= 4 ==> a.risk == b.risk)
    && (j >= 5 ==> a.decision == b.decision)
    && (j >= 6 ==> a.approval == b.approval)
    && a.errors <= b.errors && a.toolCalls <= b.toolCalls && a.trace <= b.trace
    && forall key :: key in a.metrics ==> key in b.metrics && b.metrics[key] == a.metrics[key]
  }

  /** Only the planner and the nodes that already ran have metrics. */
  ghost predicate KeysSoFar(k: nat, s: AgentState) {
    forall key :: key in s.metrics && key.NodeKey? ==> Position(key.node) <= k
  }

  lemma ApplyKeepsLogs(s: AgentState, u: Update)
    ensures var t := Apply(s, u);
            s.errors <= t.errors && s.toolCalls <= t.toolCalls && s.trace <= t.trace
  {
  }

  lemma ApplyKeepsMetrics(k: nat, s: AgentState, u: Update)
    requires 0 < k < |NODE_ORDER| && KeysSoFar(k - 1, s) && (u.metrics.Some? ==> Extends(NODE_ORDER[k], s, u.metrics.value))
    ensures forall key :: key in s.metrics ==> key in Apply(s, u).metrics && Apply(s, u).metrics[key] == s.metrics[key]
    ensures KeysSoFar(k, Apply(s, u))
  {
    PositionInOrder(k);
    hide NODE_ORDER;
  }

  lemma ApplyKeeps(k: nat, s: AgentState, u: Update)
    requires 0 < k < |NODE_ORDER| && KeysSoFar(k - 1, s) && MergedUpdate(NODE_ORDER[k], s, u)
    ensures Kept(k - 1, s, Apply(s, u)) && KeysSoFar(k, Apply(s, u))
  {
    ApplyKeepsLogs(s, u);
    ApplyKeepsMetrics(k, s, u);
    PositionInOrder(k);
    hide NODE_ORDER, KeysSoFar, Extends, LogsOwned;
  }

  lemma KeptFurther(j: nat, m: nat, a: AgentState, b: AgentState, c: AgentState)
    requires j <= m && Kept(j, a, b) && Kept(m, b, c)
    ensures Kept(j, a, c)
  {
  }

  lemma StepKeeps(q: Query, agents: Agents, states: seq<AgentState>, k: nat)
    requires IsRun(q, agents, states) && Behave(agents) && 0 < k < |NODE_ORDER| && KeysSoFar(k - 1, states[k - 1])
    ensures Kept(k - 1, states[k - 1], states[k]) && KeysSoFar(k, states[k])
  {
    PositionInOrder(k);
    StepInto(q, agents, states, k);
    hide IsRun, NodeUpdate, Apply, NODE_ORDER, Kept, KeysSoFar, MergedUpdate;
    var s := states[k - 1];
    NodeBehaves(NODE_ORDER[k], s, agents);
    ApplyKeeps(k, s, NodeUpdate(NODE_ORDER[k], s, agents));
  }

  lemma {:induction false} KeysOfRun(q: Query, agents: Agents, states: seq<AgentState>, k: nat)
    requires IsRun(q, agents, states) && Behave(agents) && k < |NODE_ORDER|
    ensures KeysSoFar(k, states[k])
  {
    hide NODE_ORDER;
    if k > 0 {
      KeysOfRun(q, agents, states, k - 1);
      StepKeeps(q, agents, states, k);
    }
  }

  /** As a run goes on, logs only grow at the end, metrics are never lost, and no field is written twice. */
  lemma {:induction false} RunsOnlyGrow(q: Query, agents: Agents, states: seq<AgentState>, j: nat, k: nat)
    requires IsRun(q, agents, states) && Behave(agents) && j <= k < |NODE_ORDER|
    ensures Kept(j, states[j], states[k])
    decreases k
  {
    hide NODE_ORDER, PlannerState;
    if j < k {
      RunsOnlyGrow(q, agents, states, j, k - 1);
      KeysOfRun(q, agents, states, k - 1);
      StepKeeps(q, agents, states, k);
      hide KeysSoFar, Kept;
      KeptFurther(j, k - 1, states[j], states[k - 1], states[k]);
    }
  }

  // ---------------------------------------------------------------- the trace

  /** The nodes a trace visits: consecutive entries of one node count as one visit. */
  function Visits(trace: seq<TraceEntry>): seq<Node> {
    if trace == [] then []
    else
      var before := Visits(trace[..|trace| - 1]);
      var node := trace[|trace| - 1].node;
      if before != [] && before[|before| - 1] == node then before else before + [node]
  }

  lemma {:induction false} VisitsSegment(trace: seq<TraceEntry>, segment: seq<TraceEntry>, node: Node)
    requires segment != [] && forall t :: t in segment ==> t.node == node
    requires Visits(trace) == [] || Visits(trace)[|Visits(trace)| - 1] != node
    ensures Visits(trace + segment) == Visits(trace) + [node]
  {
    var n := |segment| - 1;
    assert (trace + segment)[..|trace| + n] == trace + segment[..n];
    assert (trace + segment)[|trace| + n].node == node by { assert segment[n] in segment; }
    if n == 0 {
      assert trace + segment[..0] == trace;
    } else {
      VisitsSegment(trace, segment[..n], node);
    }
  }

  lemma TraceStep(q: Query, agents: Agents, states: seq<AgentState>, k: nat)
    requires IsRun(q, agents, states) && Behave(agents) && 0 < k < |NODE_ORDER|
    ensures var segment := NodeUpdate(NODE_ORDER[k], states[k - 1], agents).trace;
            && states[k].trace == states[k - 1].trace + segment
            && segment != [] && forall t :: t in segment ==> t.node == NODE_ORDER[k]
  {
    PositionInOrder(k);
    StepInto(q, agents, states, k);
    hide IsRun, NodeUpdate, NODE_ORDER, FieldsOwned, Extends;
    NodeBehaves(NODE_ORDER[k], states[k - 1], agents);
  }

  lemma OrderStep(k: nat)
    requires 0 < k < |NODE_ORDER|
    ensures NODE_ORDER[..k + 1] == NODE_ORDER[..k] + [NODE_ORDER[k]]
    ensures NODE_ORDER[k - 1] != NODE_ORDER[k]
  {
    PositionInOrder(k - 1);
    PositionInOrder(k);
  }

  /** Every node leaves exactly one contiguous, non-empty segment in the trace, in the order of the edges. */
  lemma {:induction false} TraceFollowsTheEdges(q: Query, agents: Agents, states: seq<AgentState>, k: nat)
    requires IsRun(q, agents, states) && Behave(agents) && k < |NODE_ORDER|
    ensures Visits(states[k].trace) == NODE_ORDER[..k + 1]
  {
    if k == 0 {
      assert states[0].trace == [TraceEntry(Planner, PlannedEvent)];
      assert Visits([]) == [];
    } else {
      hide NODE_ORDER, NodeUpdate, Visits, PlannerState;
      TraceFollowsTheEdges(q, agents, states, k - 1);
      TraceStep(q, agents, states, k);
      OrderStep(k);
      VisitsSegment(states[k - 1].trace, NodeUpdate(NODE_ORDER[k], states[k - 1], agents).trace, NODE_ORDER[k]);
    }
  }

  /** The trace left by invoking the built graph visits exactly the nodes on the path of its edges. */
  lemma TraceFollowsTheGraph(edges: map<Vertex, Vertex>, q: Query, agents: Agents, states: seq<AgentState>)
    requires Wired(edges) && Behave(agents) && Invoke(edges, q, agents) == Some(states)
    ensures |states| == |NODE_ORDER|
    ensures PathFrom(edges, Start, |NODE_ORDER| + 1) == Some(Visits(states[|NODE_ORDER| - 1].trace))
  {
    hide NODE_ORDER, Stepped, PlannerState, Wired, Behave, Invoke, PathFrom, Visits;
    PlannerComesFirst();
    RunsFollowTheGraph(edges, q, agents, states);
    VisitsInOrder(edges);
    TraceFollowsTheEdges(q, agents, states, |NODE_ORDER| - 1);
    assert NODE_ORDER[..|NODE_ORDER| - 1 + 1] == NODE_ORDER;
  }
}
