/**
 The agent workflow: the planner (packages/agents/planner.py), the node wrappers
 (packages/agents/nodes.py), the retrieval agent and the graph (packages/agents/workflow.py).
 */
module Workflow {
  import opened Text
  import opened MetricStore
  import opened AgentStates
  import AnalysisAgent = ExperimentAnalysisAgent
  import ImpactAgent = BusinessImpactAgent
  import RiskAgent = RiskAssessmentAgent
  import DecisionAgent
  import ApprovalAgent = HumanApprovalAgent
  import SummaryAgent = ExecutiveSummaryAgent

  // ---------------------------------------------------------------- inputs

  datatype RetrievalAnswer = Retrieved(chunks: seq<Chunk>, citations: seq<Citation>) | RetrievalRaised(message: string)

  /** What a caller asks; the planner's classification of the question is part of it. */
  datatype Query = Query(
    intent: Intent, hints: seq<string>, experimentId: Option<string>,
    approvalInput: ApprovalInput, request: Option<AnalysisRequest>)

  /** Everything a run obtains from outside: services, the database and the tools. */
  datatype Environment = Environment(
    retrieval: RetrievalAnswer, repository: AnalysisAgent.RepositoryAnswer, structured: Envelope,
    impact: ImpactAgent.ImpactInputs, riskToolFails: bool, tools: DecisionAgent.ToolAnswers)

  // ---------------------------------------------------------------- planner

  /** `_REQUIRED_AGENTS` */
  function RequiredAgents(intent: Intent): seq<Node> {
    match intent
    case GeneralQuestion => [Retrieval]
    case ExperimentLookup => [Retrieval]
    case RiskQuestion => [Retrieval, ExperimentAnalysis, RiskAssessment]
    case ImpactQuestion => [Retrieval, ExperimentAnalysis, BusinessImpact]
    case UnknownIntent => []
    case _ =>
      [Retrieval, ExperimentAnalysis, BusinessImpact, RiskAssessment, DecisionMaking, HumanApproval, ExecutiveSummary]
  }

  /** `plan_analysis`: the agents a structured request schedules. */
  function StructuredAgents(request: AnalysisRequest, intent: Intent): seq<Node> {
    [ExperimentAnalysis]
    + (if request.refusal then []
       else
         (if request.business || intent == ImpactQuestion then [BusinessImpact] else [])
         + (if intent in {RiskQuestion, DecisionSupport, SummaryRequest} then [RiskAssessment] else [])
         + (if intent in {DecisionSupport, SummaryRequest} then [DecisionMaking, HumanApproval] else []))
    + [ExecutiveSummary]
  }

  function PlannedAgents(q: Query): seq<Node> {
    match q.request
    case None => RequiredAgents(q.intent)
    case Some(request) => StructuredAgents(request, q.intent)
  }

  /** `planner_node`: the initial state with the plan filled in. */
  function PlannerState(q: Query): AgentState {
    var agents := PlannedAgents(q);
    var base := map[
      PlannerKey("planner_rule_version") := PlannerEntry("deterministic_v1"),
      PlannerKey("planner_required_agent_count") := PlannerEntry(Decimal(|agents|)),
      PlannerKey("planner_experiment_hint_count") := PlannerEntry(Decimal(|q.hints|))];
    InitialState(q.experimentId, q.approvalInput, q.request).(
      intent := q.intent, requiredAgents := agents,
      hints := if q.request.Some? then [] else q.hints,
      metrics := if q.request.Some? then base[PlannerKey("analysis_method") := PlannerEntry("structured")] else base,
      trace := [TraceEntry(Planner, PlannedEvent)])
  }

  // ---------------------------------------------------------------- retrieval

  /** `RetrievalAgent.run` */
  function RunRetrieval(s: AgentState, answer: RetrievalAnswer): Update {
    var started := TraceEntry(Retrieval, StartedEvent);
    match answer
    case Retrieved(chunks, citations) =>
      NO_UPDATE.(chunks := Some(chunks), citations := Some(citations),
                 metrics := Some(s.metrics[NodeKey(Retrieval) := NodeEntry(false, |citations|)]),
                 trace := [started, TraceEntry(Retrieval, CompletedEvent)])
    case RetrievalRaised(message) =>
      NO_UPDATE.(chunks := Some([]), citations := Some([]),
                 errors := [ErrorRecord("retrieval_failed", message, Known(Retrieval))],
                 trace := [started, TraceEntry(Retrieval, FailedEvent)])
  }

  // ---------------------------------------------------------------- nodes and runs

  /** The agent behind a node. */
  function RunAgent(node: Node, s: AgentState, env: Environment): Update {
    match node
    case Planner => NO_UPDATE
    case Retrieval => RunRetrieval(s, env.retrieval)
    case ExperimentAnalysis => AnalysisAgent.Run(s, env.repository, env.structured)
    case BusinessImpact => ImpactAgent.Run(s, env.impact)
    case RiskAssessment => RiskAgent.Run(s, env.riskToolFails)
    case DecisionMaking => DecisionAgent.Run(s, env.tools)
    case HumanApproval => ApprovalAgent.Run(s)
    case ExecutiveSummary => SummaryAgent.Run(s)
  }

  /** The agents a workflow is built with. */
  type Agents = (Node, AgentState) -> Update

  /** The repository's own agents, which `build_agent_workflow` uses unless it is given others. */
  function DefaultAgents(env: Environment): Agents { (node, s) => RunAgent(node, s, env) }

  /** The merge every wrapper applies to its agent's update: the agent's metrics over the state's. */
  function MergeMetrics(s: AgentState, u: Update): Update {
    match u.metrics
    case None => u
    case Some(metrics) => u.(metrics := Some(s.metrics + metrics))
  }

  function SkippedUpdate(node: Node): Update { NO_UPDATE.(trace := [TraceEntry(node, SkippedEvent)]) }

  /** A node wrapper: skip when not required, otherwise run the agent and merge its metrics. */
  function NodeUpdate(node: Node, s: AgentState, agents: Agents): Update {
    if node !in s.requiredAgents then SkippedUpdate(node) else MergeMetrics(s, agents(node, s))
  }

  /** The states of executing the given nodes from a state, that state included. */
  function Execute(s: AgentState, nodes: seq<Node>, agents: Agents): seq<AgentState>
    decreases nodes
  {
    [s] + if nodes == [] then [] else Execute(Apply(s, NodeUpdate(nodes[0], s, agents)), nodes[1..], agents)
  }

  /** The states of one run: state `k` is the one left by node `k` of the order; node 0 is the planner. */
  function Run(q: Query, agents: Agents): seq<AgentState> { Execute(PlannerState(q), NODE_ORDER[1..], agents) }

  /** State `k` of a run comes from the previous one by the update of node `k`. */
  ghost predicate Stepped(agents: Agents, states: seq<AgentState>, k: nat)
    requires 0 < k < |states| <= |NODE_ORDER|
  {
    states[k] == Apply(states[k - 1], NodeUpdate(NODE_ORDER[k], states[k - 1], agents))
  }

  ghost predicate IsRun(q: Query, agents: Agents, states: seq<AgentState>) {
    && |states| == |NODE_ORDER| && states[0] == PlannerState(q)
    && forall k :: 0 < k < |states| ==> Stepped(agents, states, k)
  }

  // ---------------------------------------------------------------- the graph

  datatype Vertex = Start | Step(node: Node) | End

  /** `StateGraph`: registered nodes and directed edges. */
  class StateGraph {
    var nodes: set<Node>
    var edges: map<Vertex, Vertex>

    constructor ()
      ensures nodes == {} && edges == map[]
    {
      nodes, edges := {}, map[];
    }

    method AddNode(node: Node)
      modifies this
      ensures nodes == old(nodes) + {node} && edges == old(edges)
    {
      nodes := nodes + {node};
    }

    method AddEdge(source: Vertex, target: Vertex)
      modifies this
      ensures edges == old(edges)[source := target] && nodes == old(nodes)
    {
      edges := edges[source := target];
    }
  }

  /** The nodes visited from a vertex, following at most `fuel` edges; `None` if END is not reached. */
  function PathFrom(edges: map<Vertex, Vertex>, from: Vertex, fuel: nat): Option<seq<Node>>
    decreases fuel
  {
    if from == End then Some([])
    else if fuel == 0 || from !in edges then None
    else match PathFrom(edges, edges[from], fuel - 1)
      case None => None
      case Some(rest) => Some((if from.Step? then [from.node] else []) + rest)
  }

  /** What `build_agent_workflow` registers, edge by edge. */
  ghost predicate Wired(edges: map<Vertex, Vertex>) {
    && Start in edges && edges[Start] == Step(Planner)
    && forall k :: 0 <= k < |NODE_ORDER| ==>
         Step(NODE_ORDER[k]) in edges
         && edges[Step(NODE_ORDER[k])] == Successor(k)
  }

  function Successor(k: nat): Vertex { if k + 1 < |NODE_ORDER| then Step(NODE_ORDER[k + 1]) else End }

  lemma PathStep(edges: map<Vertex, Vertex>, node: Node, rest: seq<Node>, fuel: nat)
    requires fuel > 0 && Step(node) in edges && PathFrom(edges, edges[Step(node)], fuel - 1) == Some(rest)
    ensures PathFrom(edges, Step(node), fuel) == Some([node] + rest)
  {
  }

  lemma VisitsInOrder(edges: map<Vertex, Vertex>)
    requires Wired(edges)
    ensures PathFrom(edges, Start, |NODE_ORDER| + 1) == Some(NODE_ORDER)
  {
    VisitsFrom(edges, 0);
    assert NODE_ORDER[0] == Planner;
    hide NODE_ORDER;
    assert NODE_ORDER[0..] == NODE_ORDER;
    assert [] + NODE_ORDER == NODE_ORDER;
    assert PathFrom(edges, Start, |NODE_ORDER| + 1) == Some([] + NODE_ORDER);
  }

  lemma {:induction false} VisitsFrom(edges: map<Vertex, Vertex>, k: nat)
    requires k < |NODE_ORDER| && Wired(edges)
    ensures PathFrom(edges, Step(NODE_ORDER[k]), |NODE_ORDER| - k) == Some(NODE_ORDER[k..])
    decreases |NODE_ORDER| - k
  {
    hide NODE_ORDER;
    if k + 1 < |NODE_ORDER| {
      VisitsFrom(edges, k + 1);
      PathStep(edges, NODE_ORDER[k], NODE_ORDER[k + 1..], |NODE_ORDER| - k);
      assert [NODE_ORDER[k]] + NODE_ORDER[k + 1..] == NODE_ORDER[k..];
    } else {
      assert PathFrom(edges, End, 0) == Some([]);
      PathStep(edges, NODE_ORDER[k], [], 1);
      assert [NODE_ORDER[k]] + [] == NODE_ORDER[k..];
    }
  }

  // ---------------------------------------------------------------- running the graph

  /** What a node makes of the state; the planner plans the query. */
  function Visit(node: Node, q: Query, s: AgentState, agents: Agents): AgentState {
    if node == Planner then PlannerState(q) else Apply(s, NodeUpdate(node, s, agents))
  }

  /** The states left by the nodes that are reached from a vertex, following at most `fuel` edges. */
  function Follow(edges: map<Vertex, Vertex>, from: Vertex, q: Query, s: AgentState, agents: Agents,
                  fuel: nat): Option<seq<AgentState>>
    decreases fuel
  {
    if fuel == 0 || from !in edges || edges[from] == Start then None
    else match edges[from]
      case End => Some([])
      case Step(node) =>
        var t := Visit(node, q, s, agents);
        match Follow(edges, Step(node), q, t, agents, fuel - 1)
        case None => None
        case Some(rest) => Some([t] + rest)
  }

  /** Invoking the compiled graph on the initial state of a query. */
  function Invoke(edges: map<Vertex, Vertex>, q: Query, agents: Agents): Option<seq<AgentState>> {
    Follow(edges, Start, q, InitialState(q.experimentId, q.approvalInput, q.request), agents, |NODE_ORDER| + 1)
  }

  lemma {:induction false} FollowsTheOrder(edges: map<Vertex, Vertex>, k: nat, q: Query, s: AgentState, agents: Agents)
    requires k < |NODE_ORDER| && Wired(edges)
    ensures Follow(edges, Step(NODE_ORDER[k]), q, s, agents, |NODE_ORDER| - k)
         == Some(Execute(s, NODE_ORDER[k + 1..], agents)[1..])
    decreases |NODE_ORDER| - k
  {
    PlannerComesFirst();
    hide NODE_ORDER, PlannerState, NodeUpdate, Apply;
    if k + 1 < |NODE_ORDER| {
      var node, nodes := NODE_ORDER[k + 1], NODE_ORDER[k + 1..];
      var t := Visit(node, q, s, agents);
      FollowsTheOrder(edges, k + 1, q, t, agents);
      assert nodes[0] == node && nodes[1..] == NODE_ORDER[k + 2..];
      assert Execute(s, nodes, agents)[1..] == Execute(t, nodes[1..], agents);
      assert [t] + Execute(t, nodes[1..], agents)[1..] == Execute(t, nodes[1..], agents);
    } else {
      assert NODE_ORDER[k + 1..] == [];
      assert Execute(s, NODE_ORDER[k + 1..], agents) == [s];
    }
  }

  lemma PlannerComesFirst()
    ensures NODE_ORDER != [] && NODE_ORDER[0] == Planner && forall k :: 0 < k < |NODE_ORDER| ==> NODE_ORDER[k] != Planner
  {
  }

  /** Following the edges of the built graph runs the nodes in the order of the workflow. */
  lemma InvokeIsRun(edges: map<Vertex, Vertex>, q: Query, agents: Agents)
    requires Wired(edges)
    ensures Invoke(edges, q, agents) == Some(Run(q, agents))
  {
    PlannerComesFirst();
    hide NODE_ORDER, PlannerState, NodeUpdate, Apply, InitialState;
    var s := PlannerState(q);
    FollowsTheOrder(edges, 0, q, s, agents);
    var run := Execute(s, NODE_ORDER[1..], agents);
    assert run == [s] + run[1..];
  }

  /** The `add_edge` calls of `build_agent_workflow`. */
  method AddEdges(graph: StateGraph)
    modifies graph
    ensures graph.nodes == old(graph.nodes) && Wired(graph.edges)
  {
    hide Wired;
    graph.AddEdge(Start, Step(Planner));
    graph.AddEdge(Step(Planner), Step(Retrieval));
    graph.AddEdge(Step(Retrieval), Step(ExperimentAnalysis));
    graph.AddEdge(Step(ExperimentAnalysis), Step(BusinessImpact));
    graph.AddEdge(Step(BusinessImpact), Step(RiskAssessment));
    graph.AddEdge(Step(RiskAssessment), Step(DecisionMaking));
    graph.AddEdge(Step(DecisionMaking), Step(HumanApproval));
    graph.AddEdge(Step(HumanApproval), Step(ExecutiveSummary));
    graph.AddEdge(Step(ExecutiveSummary), End);
    WiredByPairs(graph.edges);
  }

  lemma WiredByPairs(edges: map<Vertex, Vertex>)
    requires Start in edges && edges[Start] == Step(Planner)
    requires Step(Planner) in edges && edges[Step(Planner)] == Step(Retrieval)
    requires Step(Retrieval) in edges && edges[Step(Retrieval)] == Step(ExperimentAnalysis)
    requires Step(ExperimentAnalysis) in edges && edges[Step(ExperimentAnalysis)] == Step(BusinessImpact)
    requires Step(BusinessImpact) in edges && edges[Step(BusinessImpact)] == Step(RiskAssessment)
    requires Step(RiskAssessment) in edges && edges[Step(RiskAssessment)] == Step(DecisionMaking)
    requires Step(DecisionMaking) in edges && edges[Step(DecisionMaking)] == Step(HumanApproval)
    requires Step(HumanApproval) in edges && edges[Step(HumanApproval)] == Step(ExecutiveSummary)
    requires Step(ExecutiveSummary) in edges && edges[Step(ExecutiveSummary)] == End
    ensures Wired(edges)
  {
  }

  /** `build_agent_workflow`: every node is registered, the edges visit them in order, and invoking the graph is a run. */
  method BuildAgentWorkflow() returns (graph: StateGraph)
    ensures fresh(graph)
    ensures forall node: Node :: node in graph.nodes
    ensures PathFrom(graph.edges, Start, |NODE_ORDER| + 1) == Some(NODE_ORDER)
    ensures Wired(graph.edges) && forall q, agents :: Invoke(graph.edges, q, agents) == Some(Run(q, agents))
  {
    hide PathFrom, Wired, NODE_ORDER, Invoke, Run;
    graph := new StateGraph();
    graph.AddNode(Planner);
    graph.AddNode(Retrieval);
    graph.AddNode(ExperimentAnalysis);
    graph.AddNode(BusinessImpact);
    graph.AddNode(RiskAssessment);
    graph.AddNode(DecisionMaking);
    graph.AddNode(HumanApproval);
    graph.AddNode(ExecutiveSummary);
    forall node: Node ensures node in graph.nodes {
      match node
      case Planner => case Retrieval => case ExperimentAnalysis => case BusinessImpact =>
      case RiskAssessment => case DecisionMaking => case HumanApproval => case ExecutiveSummary =>
    }
    AddEdges(graph);
    VisitsInOrder(graph.edges);
    forall q, agents ensures Invoke(graph.edges, q, agents) == Some(Run(q, agents)) {
      InvokeIsRun(graph.edges, q, agents);
    }
  }
}
