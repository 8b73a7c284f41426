/** What monitoring reads off a finished run (packages/agents/observability.py). */
module WorkflowObservation {
  import opened Text
  import opened Counting
  import opened AgentStates
  import opened Workflow
  import opened WorkflowRuns
  import opened WorkflowOutcomes
  import AnalysisAgent = ExperimentAnalysisAgent
  import ImpactAgent = BusinessImpactAgent
  import RiskAgent = RiskAssessmentAgent
  import DecisionAgent
  import ApprovalAgent = HumanApprovalAgent
  import SummaryAgent = ExecutiveSummaryAgent

  datatype ExecutionStatus = Executed(event: TraceEvent) | Missing

  datatype RetrievalStatus = RetrievalCompleted | RetrievalNotRequired | RetrievalUnknown

  /** What a node produced, in the terms of its own record. */
  datatype NodeResult =
    | PlannedIntent(intent: Intent) | RetrievalResult(retrieval: RetrievalStatus) | AnalysisResult(analysis: AnalysisStatus)
    | ImpactResult(impact: ImpactStatus) | RiskResult(risk: RiskStatus) | DecisionResult(decision: DecisionStatus)
    | ApprovalResult(approval: ApprovalStatus) | SummaryResult(summary: SummaryStatus)

  datatype NodeObservation = NodeObservation(
    status: ExecutionStatus, result: NodeResult, errorCount: nat, toolCallCount: nat, toolFailureCount: nat)

  datatype Observation = Observation(
    intent: Intent, requiredAgents: seq<Node>, nodes: map<Node, NodeObservation>, success: bool, completeness: real,
    citationCount: nat, totalToolCalls: nat, totalToolFailures: nat,
    decisionStatus: DecisionStatus, approvalStatus: ApprovalStatus, summaryStatus: SummaryStatus,
    finalRecommendation: RecommendationText, errors: seq<string>)

  // ---------------------------------------------------------------- what is observed

  function TraceKey(t: TraceEntry): Node { t.node }
  function CallKey(c: ToolCall): Author { c.author }
  function ErrorKey(e: ErrorRecord): Author { e.author }

  predicate Failed(c: ToolCall) { c.failed }

  /** `_execution_status`: the last event, or missing. */
  function StatusOf(entries: seq<TraceEntry>): ExecutionStatus {
    if entries == [] then Missing else Executed(entries[|entries| - 1].event)
  }

  /** `_result_status` */
  function ResultOf(s: AgentState, node: Node): NodeResult {
    match node
    case Planner => PlannedIntent(s.intent)
    case Retrieval =>
      RetrievalResult(if NodeKey(Retrieval) in s.metrics then RetrievalCompleted
                      else if Retrieval !in s.requiredAgents then RetrievalNotRequired else RetrievalUnknown)
    case ExperimentAnalysis => AnalysisResult(s.analysis.status)
    case BusinessImpact => ImpactResult(s.impact.status)
    case RiskAssessment => RiskResult(s.risk.status)
    case DecisionMaking => DecisionResult(s.decision.status)
    case HumanApproval => ApprovalResult(s.approval.status)
    case ExecutiveSummary => SummaryResult(s.summary.status)
  }

  function ObserveNode(s: AgentState, node: Node): NodeObservation {
    NodeObservation(
      StatusOf(Group(s.trace, TraceKey, node)), ResultOf(s, node), |Group(s.errors, ErrorKey, Known(node))|,
      |Group(s.toolCalls, CallKey, Known(node))|, Count(Failed, Group(s.toolCalls, CallKey, Known(node))))
  }

  /** `executive_summary.recommendation or decision.recommendation` */
  function FinalRecommendation(s: AgentState): RecommendationText {
    if s.summary.recommendation == NoText then Recommends(s.decision.recommendation) else s.summary.recommendation
  }

  /** The citations that `_unique_citations` collects from all records. */
  function Cited(s: AgentState): set<Citation> {
    set c | c in s.citations + s.analysis.citations + s.impact.citations + s.risk.citations + s.decision.citations
                 + s.summary.citations
  }

  function ErrorText(e: ErrorRecord): string { Strip(e.code + ": " + e.message) }

  /** The nodes seen in a trace. */
  function Seen(trace: seq<TraceEntry>): set<Node> { set t | t in trace :: t.node }

  /** `calculate_trace_completeness` */
  method TraceCompleteness(s: AgentState) returns (completeness: real)
    ensures completeness == |Seen(s.trace)| as real / 8.0
  {
    var seen: set<Node> := {};
    for i := 0 to |s.trace|
      invariant seen == Seen(s.trace[..i])
    {
      assert s.trace[..i + 1] == s.trace[..i] + [s.trace[i]];
      seen := seen + {s.trace[i].node};
    }
    assert s.trace[..|s.trace|] == s.trace;
    completeness := |seen| as real / 8.0;
  }

  ghost predicate ObservesNodes(s: AgentState, nodes: map<Node, NodeObservation>) {
    forall node: Node :: node in nodes && nodes[node] == ObserveNode(s, node)
  }

  /** What the observation of a state holds. */
  ghost predicate Observes(s: AgentState, o: Observation) {
    && ObservesNodes(s, o.nodes) && o.intent == s.intent && o.requiredAgents == s.requiredAgents
    && o.completeness == |Seen(s.trace)| as real / 8.0 && o.citationCount == |Cited(s)|
    && o.totalToolCalls == |s.toolCalls| && o.totalToolFailures == Count(Failed, s.toolCalls)
    && (o.success <==> s.errors == [] && forall node :: ObserveNode(s, node).status != Executed(FailedEvent))
    && o.decisionStatus == s.decision.status && o.approvalStatus == s.approval.status && o.summaryStatus == s.summary.status
    && o.finalRecommendation == FinalRecommendation(s)
    && |o.errors| == |s.errors| && forall k :: 0 <= k < |s.errors| ==> o.errors[k] == ErrorText(s.errors[k])
  }

  /** What is counted and written: every citation of the six records once, and each error's code and message. */
  lemma ObservedExactly(s: AgentState, o: Observation)
    requires Observes(s, o)
    ensures forall c :: c in Cited(s) <==>
              || c in s.citations || c in s.analysis.citations || c in s.impact.citations || c in s.risk.citations
              || c in s.decision.citations || c in s.summary.citations
    ensures o.citationCount == |Cited(s)|
    ensures forall k :: 0 <= k < |s.errors| ==> o.errors[k] == Strip(s.errors[k].code + ": " + s.errors[k].message)
  {
    hide Strip, ObservesNodes, ObserveNode, Count, Seen;
  }

  method ObserveOne(s: AgentState, node: Node, traces: map<Node, seq<TraceEntry>>, calls: map<Author, seq<ToolCall>>,
                    errors: map<Author, seq<ErrorRecord>>)
    returns (observation: NodeObservation)
    requires Lookup(traces, node) == Group(s.trace, TraceKey, node)
    requires Lookup(calls, Known(node)) == Group(s.toolCalls, CallKey, Known(node))
    requires Lookup(errors, Known(node)) == Group(s.errors, ErrorKey, Known(node))
    ensures observation == ObserveNode(s, node)
  {
    hide Group, Count, StatusOf, ResultOf;
    var own := Lookup(calls, Known(node));
    observation := NodeObservation(StatusOf(Lookup(traces, node)), ResultOf(s, node), |Lookup(errors, Known(node))|,
                                   |own|, Count(Failed, own));
  }

  /** The comprehension over the node list, and whether any node failed. */
  method ObserveNodes(s: AgentState) returns (nodes: map<Node, NodeObservation>, anyFailed: bool)
    ensures ObservesNodes(s, nodes)
    ensures anyFailed <==> exists node :: ObserveNode(s, node).status == Executed(FailedEvent)
  {
    var traces, _ := GroupBy(s.trace, TraceKey);
    var calls, _ := GroupBy(s.toolCalls, CallKey);
    var errors, _ := GroupBy(s.errors, ErrorKey);
    hide Group, Count, NODE_ORDER, ObserveNode;
    nodes, anyFailed := map[], false;
    for i := 0 to |NODE_ORDER|
      invariant forall k :: 0 <= k < i ==> NODE_ORDER[k] in nodes && nodes[NODE_ORDER[k]] == ObserveNode(s, NODE_ORDER[k])
      invariant anyFailed <==> exists k :: 0 <= k < i && ObserveNode(s, NODE_ORDER[k]).status == Executed(FailedEvent)
    {
      var observation := ObserveOne(s, NODE_ORDER[i], traces, calls, errors);
      nodes := nodes[NODE_ORDER[i] := observation];
      anyFailed := anyFailed || observation.status == Executed(FailedEvent);
    }
    forall node: Node ensures node in nodes && nodes[node] == ObserveNode(s, node) { InOrder(node); }
    if node :| ObserveNode(s, node).status == Executed(FailedEvent) {
      InOrder(node);
    }
  }

  lemma InOrder(node: Node)
    ensures Position(node) < |NODE_ORDER| && NODE_ORDER[Position(node)] == node
  {
  }

  method CollectErrors(errors: seq<ErrorRecord>) returns (texts: seq<string>)
    ensures |texts| == |errors| && forall k :: 0 <= k < |errors| ==> texts[k] == ErrorText(errors[k])
  {
    texts := [];
    for i := 0 to |errors|
      invariant |texts| == i && forall k :: 0 <= k < i ==> texts[k] == ErrorText(errors[k])
    {
      texts := texts + [ErrorText(errors[i])];
    }
  }

  /** `extract_workflow_observation` */
  method ExtractObservation(s: AgentState) returns (o: Observation)
    ensures Observes(s, o)
  {
    hide ObservesNodes, Group, Count, ErrorText, ObserveNode;
    var nodes, anyFailed := ObserveNodes(s);
    var completeness := TraceCompleteness(s);
    var failures := CountFailures(s.toolCalls);
    var errors := CollectErrors(s.errors);
    o := Observation(s.intent, s.requiredAgents, nodes, s.errors == [] && !anyFailed, completeness, |Cited(s)|, |s.toolCalls|,
                     failures, s.decision.status, s.approval.status, s.summary.status, FinalRecommendation(s), errors);
  }

  method CountFailures(calls: seq<ToolCall>) returns (count: nat)
    ensures count == Count(Failed, calls)
  {
    count := 0;
    for i := 0 to |calls|
      invariant count == Count(Failed, calls[..i])
    {
      assert calls[..i + 1][..i] == calls[..i];
      count := count + if calls[i].failed then 1 else 0;
    }
    assert calls[..|calls|] == calls;
  }

  // ---------------------------------------------------------------- conservation

  lemma OrderIsDistinct()
    ensures Distinct(NODE_ORDER) && forall node: Node :: node in NODE_ORDER
  {
    forall node: Node ensures node in NODE_ORDER { InOrder(node); }
  }

  /** The eight nodes as authors of records. */
  function NodeAuthors(): (authors: seq<Author>)
    ensures Distinct(authors) && forall author :: author in authors <==> author.Known?
  {
    OrderIsDistinct();
    var authors := seq(|NODE_ORDER|, i requires 0 <= i < |NODE_ORDER| => Known(NODE_ORDER[i]));
    assert forall node: Node :: Known(node) in authors by {
      forall node: Node ensures Known(node) in authors {
        InOrder(node);
        assert authors[Position(node)] == Known(node);
      }
    }
    authors
  }

  /** The per-node columns of an observation. */
  function CallColumn(o: Observation): Author -> nat {
    (a: Author) => if a.Known? && a.node in o.nodes then o.nodes[a.node].toolCallCount else 0
  }
  function FailureColumn(o: Observation): Author -> nat {
    (a: Author) => if a.Known? && a.node in o.nodes then o.nodes[a.node].toolFailureCount else 0
  }
  function ErrorColumn(o: Observation): Author -> nat {
    (a: Author) => if a.Known? && a.node in o.nodes then o.nodes[a.node].errorCount else 0
  }

  predicate ForeignCall(c: ToolCall) { c.author.Foreign? }
  predicate ForeignFailure(c: ToolCall) { c.author.Foreign? && c.failed }
  predicate ForeignError(e: ErrorRecord) { e.author.Foreign? }

  lemma GroupSizes<T(!new)>(records: seq<T>, key: T -> Author, foreign: T -> bool, column: Author -> nat)
    requires forall r :: foreign(r) <==> key(r).Foreign?
    requires forall a: Author :: a.Known? ==> column(a) == |Group(records, key, a)|
    ensures Total(column, NodeAuthors()) + Count(foreign, records) == |records|
  {
    hide Total, Group, Count, NodeAuthors;
    var any := (r: T) => true;
    var authors := NodeAuthors();
    GroupsAddUpWithin(any, foreign, records, key, authors);
    CountAll(any, records);
    forall a | a in authors ensures column(a) == GroupCounts(any, records, key)(a) {
      CountAll(any, Group(records, key, a));
    }
    TotalAgrees(column, GroupCounts(any, records, key), authors);
  }

  /**
   The per-node counts of an observation add up to its totals less the records logged under other names:
   no record of a node is lost or counted twice, and the sums are short exactly if there are other such records.
   */
  lemma CountsAddUp(s: AgentState, o: Observation)
    requires Observes(s, o)
    ensures Total(CallColumn(o), NodeAuthors()) + Count(ForeignCall, s.toolCalls) == o.totalToolCalls
    ensures Total(FailureColumn(o), NodeAuthors()) + Count(ForeignFailure, s.toolCalls) == o.totalToolFailures
    ensures Total(ErrorColumn(o), NodeAuthors()) + Count(ForeignError, s.errors) == |o.errors|
    ensures Total(CallColumn(o), NodeAuthors()) == o.totalToolCalls <==> forall c :: c in s.toolCalls ==> c.author.Known?
    ensures Total(FailureColumn(o), NodeAuthors()) == o.totalToolFailures
       <==> forall c :: c in s.toolCalls && c.failed ==> c.author.Known?
    ensures Total(ErrorColumn(o), NodeAuthors()) == |o.errors| <==> forall e :: e in s.errors ==> e.author.Known?
  {
    hide Total, Group, Count, NodeAuthors, Cited, ErrorText, Seen;
    GroupSizes(s.toolCalls, CallKey, ForeignCall, CallColumn(o));
    GroupSizes(s.errors, ErrorKey, ForeignError, ErrorColumn(o));
    GroupsAddUpWithin(Failed, ForeignFailure, s.toolCalls, CallKey, NodeAuthors());
    TotalAgrees(FailureColumn(o), GroupCounts(Failed, s.toolCalls, CallKey), NodeAuthors());
    CountNone(ForeignCall, s.toolCalls);
    CountNone(ForeignFailure, s.toolCalls);
    CountNone(ForeignError, s.errors);
  }

  /** Every call and error so far was logged by a node of the workflow. */
  ghost predicate OwnLogs(s: AgentState) {
    (forall c :: c in s.toolCalls ==> c.author.Known?) && forall e :: e in s.errors ==> e.author.Known?
  }

  lemma OwnLogsGrow(node: Node, s: AgentState, u: Update)
    requires OwnLogs(s) && LogsOwned(node, u)
    ensures OwnLogs(Apply(s, u))
  {
  }

  lemma {:induction false} RunLogsAreOwn(q: Query, agents: Agents, states: seq<AgentState>, k: nat)
    requires IsRun(q, agents, states) && Behave(agents) && k < |NODE_ORDER|
    ensures OwnLogs(states[k])
  {
    hide NodeUpdate, Apply, NODE_ORDER;
    if k > 0 {
      hide PlannerState;
      RunLogsAreOwn(q, agents, states, k - 1);
      PlannerNeverAgain(k);
      StepInto(q, agents, states, k);
      NodeBehaves(NODE_ORDER[k], states[k - 1], agents);
      hide OwnLogs, LogsOwned, FieldsOwned, Extends;
      OwnLogsGrow(NODE_ORDER[k], states[k - 1], NodeUpdate(NODE_ORDER[k], states[k - 1], agents));
    }
  }

  lemma OwnLogsHaveNoOther(s: AgentState)
    requires OwnLogs(s)
    ensures Count(ForeignCall, s.toolCalls) == 0 && Count(ForeignFailure, s.toolCalls) == 0
    ensures Count(ForeignError, s.errors) == 0
  {
    hide Count;
    CountNone(ForeignCall, s.toolCalls);
    CountNone(ForeignFailure, s.toolCalls);
    CountNone(ForeignError, s.errors);
  }

  /** In a run of well-behaved agents the per-node counts add up to the totals. */
  lemma RunCountsAddUp(q: Query, agents: Agents, states: seq<AgentState>, o: Observation)
    requires IsRun(q, agents, states) && Behave(agents) && Observes(states[7], o)
    ensures Total(CallColumn(o), NodeAuthors()) == o.totalToolCalls
    ensures Total(FailureColumn(o), NodeAuthors()) == o.totalToolFailures
    ensures Total(ErrorColumn(o), NodeAuthors()) == |o.errors|
  {
    hide *;
    OrderNames();
    FinalFields(q, agents, states);
    RunLogsAreOwn(q, agents, states, 7);
    CountsAddUp(states[7], o);
    OwnLogsHaveNoOther(states[7]);
  }

  // ---------------------------------------------------------------- observing a run

  lemma {:induction false} EntriesConcat(a: seq<TraceEntry>, b: seq<TraceEntry>, node: Node)
    ensures Group(a + b, TraceKey, node) == Group(a, TraceKey, node) + Group(b, TraceKey, node)
  {
    if b == [] {
      assert a + b == a;
    } else {
      var n := |b| - 1;
      assert (a + b)[..|a| + n] == a + b[..n];
      EntriesConcat(a, b[..n], node);
    }
  }

  lemma {:induction false} EntriesUniform(segment: seq<TraceEntry>, own: Node, node: Node)
    requires forall t :: t in segment ==> t.node == own
    ensures Group(segment, TraceKey, node) == if own == node then segment else []
  {
    if segment != [] {
      var n := |segment| - 1;
      assert segment[n] in segment;
      EntriesUniform(segment[..n], own, node);
      if own == node {
        assert segment[..n] + [segment[n]] == segment;
      }
    }
  }

  lemma NextEntries(q: Query, agents: Agents, states: seq<AgentState>, k: nat, p: nat)
    requires IsRun(q, agents, states) && Behave(agents) && 0 < k < |NODE_ORDER| && 0 < p < |NODE_ORDER|
    ensures Group(states[k].trace, TraceKey, NODE_ORDER[p])
         == Group(states[k - 1].trace, TraceKey, NODE_ORDER[p])
            + if k == p then NodeUpdate(NODE_ORDER[k], states[k - 1], agents).trace else []
  {
    TraceStep(q, agents, states, k);
    hide *;
    PositionInOrder(p);
    PositionInOrder(k);
    var segment := NodeUpdate(NODE_ORDER[k], states[k - 1], agents).trace;
    EntriesConcat(states[k - 1].trace, segment, NODE_ORDER[p]);
    EntriesUniform(segment, NODE_ORDER[k], NODE_ORDER[p]);
  }

  /** In a run, a node's trace entries are exactly those of its own update. */
  lemma {:induction false} EntriesOfNode(q: Query, agents: Agents, states: seq<AgentState>, k: nat, p: nat)
    requires IsRun(q, agents, states) && Behave(agents) && k < |NODE_ORDER| && 0 < p < |NODE_ORDER|
    ensures Group(states[k].trace, TraceKey, NODE_ORDER[p])
         == if k < p then [] else NodeUpdate(NODE_ORDER[p], states[p - 1], agents).trace
  {
    hide NODE_ORDER, NodeUpdate, Group, PlannerState, Behave;
    if k == 0 {
      FirstEntries(q, p);
    } else {
      EntriesOfNode(q, agents, states, k - 1, p);
      NextEntries(q, agents, states, k, p);
    }
  }

  lemma FirstEntries(q: Query, p: nat)
    requires 0 < p < |NODE_ORDER|
    ensures Group(PlannerState(q).trace, TraceKey, NODE_ORDER[p]) == []
  {
    PositionInOrder(p);
    assert PlannerState(q).trace == [TraceEntry(Planner, PlannedEvent)];
    hide PlannerState, NODE_ORDER;
    EntriesUniform([TraceEntry(Planner, PlannedEvent)], Planner, NODE_ORDER[p]);
  }

  lemma {:induction false} VisitsAreSeen(trace: seq<TraceEntry>)
    ensures forall node :: node in Visits(trace) <==> node in Seen(trace)
  {
    if trace != [] {
      var n := |trace| - 1;
      VisitsAreSeen(trace[..n]);
      assert trace == trace[..n] + [trace[n]];
      assert Seen(trace) == Seen(trace[..n]) + {trace[n].node};
    }
  }

  ghost const ALL_NODES: set<Node> :=
    {Planner, Retrieval, ExperimentAnalysis, BusinessImpact, RiskAssessment, DecisionMaking, HumanApproval, ExecutiveSummary}

  lemma AllNodes(seen: set<Node>)
    requires forall node: Node :: node in seen
    ensures |seen| == 8
  {
    forall node: Node ensures node in ALL_NODES {
      match node
      case Planner => case Retrieval => case ExperimentAnalysis => case BusinessImpact =>
      case RiskAssessment => case DecisionMaking => case HumanApproval => case ExecutiveSummary =>
    }
    assert seen == ALL_NODES;
  }

  /** Every run of well-behaved agents is observed as complete, whatever was required. */
  lemma RunsAreComplete(q: Query, agents: Agents, states: seq<AgentState>, o: Observation)
    requires IsRun(q, agents, states) && Behave(agents) && Observes(states[7], o)
    ensures o.completeness == 1.0
  {
    TraceFollowsTheEdges(q, agents, states, 7);
    VisitsAreSeen(states[7].trace);
    assert NODE_ORDER[..8] == NODE_ORDER;
    OrderIsDistinct();
    AllNodes(Seen(states[7].trace));
    hide IsRun, Behave;
  }

  /** A node that is not required ends as skipped, in every run of well-behaved agents. */
  lemma UnrequiredNodesAreSkipped(q: Query, agents: Agents, states: seq<AgentState>, p: nat)
    requires IsRun(q, agents, states) && Behave(agents) && 0 < p < |NODE_ORDER| && NODE_ORDER[p] !in PlannedAgents(q)
    ensures ObserveNode(states[7], NODE_ORDER[p]).status == Executed(SkippedEvent)
  {
    EntriesOfNode(q, agents, states, 7, p);
    InputsKept(q, agents, states, p - 1);
    hide IsRun, Behave, Group, PlannedAgents, NODE_ORDER;
  }

  /** How an agent's own trace ends: completed, or failed with a logged error; only one agent may skip itself. */
  ghost predicate EndsProperly(node: Node, s: AgentState, u: Update) {
    && u.trace != []
    && var event := u.trace[|u.trace| - 1].event;
       && event in {CompletedEvent, FailedEvent, SkippedEvent}
       && (event == FailedEvent ==> u.errors != [])
       && (event == SkippedEvent ==> node == BusinessImpact && s.request.Some?)
  }

  lemma EvidenceAgentsEnd(s: AgentState, env: Environment)
    ensures EndsProperly(Retrieval, s, RunRetrieval(s, env.retrieval))
    ensures EndsProperly(ExperimentAnalysis, s, AnalysisAgent.Run(s, env.repository, env.structured))
    ensures EndsProperly(BusinessImpact, s, ImpactAgent.Run(s, env.impact))
  {
    hide AnalysisAgent.AnalysisOf, AnalysisAgent.MatchingCitations, AnalysisAgent.UNRESOLVED_NOTE, ImpactAgent.Build;
  }

  lemma ClosingAgentsEnd(s: AgentState, env: Environment)
    ensures EndsProperly(RiskAssessment, s, RiskAgent.Run(s, env.riskToolFails))
    ensures EndsProperly(DecisionMaking, s, DecisionAgent.Run(s, env.tools))
    ensures EndsProperly(HumanApproval, s, ApprovalAgent.Run(s))
    ensures EndsProperly(ExecutiveSummary, s, SummaryAgent.Run(s))
  {
    hide RiskAgent.Assess, RiskAgent.AssessStructured, RiskAgent.HasContext, DecisionAgent.Decide,
      DecisionAgent.DecideStructured, DecisionAgent.CallsOf, ApprovalAgent.Build, ApprovalAgent.InputErrors,
      SummaryAgent.Build;
  }

  lemma AgentEnds(node: Node, s: AgentState, env: Environment)
    requires node != Planner
    ensures EndsProperly(node, s, RunAgent(node, s, env))
  {
    EvidenceAgentsEnd(s, env);
    ClosingAgentsEnd(s, env);
    hide EndsProperly, RunRetrieval, AnalysisAgent.Run, ImpactAgent.Run, RiskAgent.Run, DecisionAgent.Run,
      ApprovalAgent.Run, SummaryAgent.Run;
  }

  lemma RequiredEntries(q: Query, env: Environment, states: seq<AgentState>, p: nat)
    requires DefaultRun(q, env, states) && 0 < p < |NODE_ORDER|
    ensures |states| == 8
    ensures Group(states[7].trace, TraceKey, NODE_ORDER[p])
         == StepUpdate(q, NODE_ORDER[p], states[p - 1], RunAgent(NODE_ORDER[p], states[p - 1], env)).trace
    ensures NODE_ORDER[p] in PlannedAgents(q) && states[7].errors == [] ==>
              RunAgent(NODE_ORDER[p], states[p - 1], env).errors == []
    ensures states[p - 1].request == q.request
  {
    hide *;
    DefaultRunIsARun(q, env, states);
    var agents := DefaultAgents(env);
    DefaultAgentsBehave(env);
    EntriesOfNode(q, agents, states, 7, p);
    InputsKept(q, agents, states, p - 1);
    DefaultAgentIs(env, NODE_ORDER[p], states[p - 1]);
    DefaultStep(q, env, states, p);
    RunsOnlyGrow(q, agents, states, p, 7);
    UpdateIsStep(q, NODE_ORDER[p], states[p - 1], agents);
    StepErrors(q, NODE_ORDER[p], states[p - 1], RunAgent(NODE_ORDER[p], states[p - 1], env), p, states[p], states[7]);
  }

  lemma UpdateIsStep(q: Query, node: Node, s: AgentState, agents: Agents)
    requires s.requiredAgents == PlannedAgents(q)
    ensures NodeUpdate(node, s, agents) == StepUpdate(q, node, s, agents(node, s))
  {
    hide PlannedAgents, MergeMetrics, SkippedUpdate;
  }

  lemma StepErrors(q: Query, node: Node, s: AgentState, own: Update, p: nat, t: AgentState, last: AgentState)
    requires t == Apply(s, StepUpdate(q, node, s, own)) && Kept(p, t, last)
    ensures node in PlannedAgents(q) && last.errors == [] ==> own.errors == []
  {
    hide PlannedAgents;
  }

  /** How every node of a run is observed. */
  lemma RequiredNodesRun(q: Query, env: Environment, states: seq<AgentState>, p: nat)
    requires DefaultRun(q, env, states) && 0 < p < |NODE_ORDER| && NODE_ORDER[p] in PlannedAgents(q)
    ensures |states| == 8
    ensures var status := ObserveNode(states[7], NODE_ORDER[p]).status;
            && (status in {Executed(CompletedEvent), Executed(FailedEvent)}
                || (status == Executed(SkippedEvent) && NODE_ORDER[p] == BusinessImpact && q.request.Some?))
            && (status == Executed(FailedEvent) ==> states[7].errors != [])
  {
    hide *;
    OrderNames();
    RequiredEntries(q, env, states, p);
    PositionInOrder(p);
    NotThePlanner(NODE_ORDER[p]);
    AgentEnds(NODE_ORDER[p], states[p - 1], env);
    StatusFromEntries(q, NODE_ORDER[p], states[p - 1], RunAgent(NODE_ORDER[p], states[p - 1], env), states[7]);
  }

  lemma NotThePlanner(node: Node)
    requires Position(node) > 0
    ensures node != Planner
  {
  }

  lemma StatusFromEntries(q: Query, node: Node, s: AgentState, own: Update, last: AgentState)
    requires node in PlannedAgents(q) && EndsProperly(node, s, own)
    requires Group(last.trace, TraceKey, node) == StepUpdate(q, node, s, own).trace
    ensures var status := ObserveNode(last, node).status;
            && (status in {Executed(CompletedEvent), Executed(FailedEvent)}
                || (status == Executed(SkippedEvent) && node == BusinessImpact && s.request.Some?))
            && (status == Executed(FailedEvent) ==> own.errors != [])
  {
    hide PlannedAgents, Group;
  }

  lemma {:induction false} PlannerEntries(q: Query, agents: Agents, states: seq<AgentState>, k: nat)
    requires IsRun(q, agents, states) && Behave(agents) && k < |NODE_ORDER|
    ensures Group(states[k].trace, TraceKey, Planner) == [TraceEntry(Planner, PlannedEvent)]
  {
    hide Behave;
    if k == 0 {
      assert states[0].trace == [TraceEntry(Planner, PlannedEvent)];
    } else {
      hide NODE_ORDER, NodeUpdate, Group, PlannerState, Position;
      PlannerEntries(q, agents, states, k - 1);
      TraceStep(q, agents, states, k);
      PlannerNeverAgain(k);
      var segment := NodeUpdate(NODE_ORDER[k], states[k - 1], agents).trace;
      EntriesConcat(states[k - 1].trace, segment, Planner);
      EntriesUniform(segment, NODE_ORDER[k], Planner);
    }
  }

  lemma PlannerNeverAgain(k: nat)
    requires 0 < k < |NODE_ORDER|
    ensures NODE_ORDER[k] != Planner
  {
    PositionInOrder(k);
  }

  /** A run is observed as successful exactly when it logged no error: a failed node always logs one. */
  lemma SuccessIsNoErrors(q: Query, env: Environment, states: seq<AgentState>, o: Observation)
    requires DefaultRun(q, env, states) && |states| == 8 && Observes(states[7], o)
    ensures o.success <==> states[7].errors == []
  {
    hide *;
    SuccessMeans(states[7], o);
    OrderNames();
    if states[7].errors == [] {
      forall node: Node ensures ObserveNode(states[7], node).status != Executed(FailedEvent) {
        NodeHasNotFailed(q, env, states, node);
      }
    }
  }

  lemma SuccessMeans(s: AgentState, o: Observation)
    requires Observes(s, o)
    ensures o.success <==> s.errors == [] && forall node :: ObserveNode(s, node).status != Executed(FailedEvent)
  {
    hide ObservesNodes, ObserveNode;
  }

  lemma NodeHasNotFailed(q: Query, env: Environment, states: seq<AgentState>, node: Node)
    requires DefaultRun(q, env, states) && |states| == 8 && states[7].errors == []
    ensures ObserveNode(states[7], node).status != Executed(FailedEvent)
  {
    hide *;
    OrderNames();
    InOrder(node);
    DefaultRunIsARun(q, env, states);
    DefaultAgentsBehave(env);
    var p := Position(node);
    if p == 0 {
      PlannerEntries(q, DefaultAgents(env), states, 7);
      PlannerStatus(states[7], node);
    } else if node in PlannedAgents(q) {
      RequiredNodesRun(q, env, states, p);
    } else {
      UnrequiredNodesAreSkipped(q, DefaultAgents(env), states, p);
    }
  }

  lemma PlannerStatus(s: AgentState, node: Node)
    requires Position(node) == 0 && Group(s.trace, TraceKey, Planner) == [TraceEntry(Planner, PlannedEvent)]
    ensures ObserveNode(s, node).status == Executed(PlannedEvent)
  {
    hide Group;
  }

  /** The recommendation reported for an unstructured run is always the one its decision made. */
  lemma ReportedRecommendation(q: Query, env: Environment, states: seq<AgentState>)
    requires DefaultRun(q, env, states) && q.request == None
    ensures |states| == 8
    ensures FinalRecommendation(states[7]) == Recommends(states[7].decision.recommendation)
  {
    hide *;
    SummaryOfRun(q, env, states);
    FinalFieldsOfDefaultRun(q, env, states);
    if FullRun(q) {
      FirstSteps(q, env, states);
      FullPlan(q, ExecutiveSummary);
      DecisionOfRun(q, env, states);
      FullDecision(q, states[4], env.tools);
      DecideStatus(states[4], env.tools);
      SummaryRepeats(states[6], states[7]);
    } else {
      NoSummaryPlanned(q);
      NoSummaryText(states[7]);
    }
  }

  lemma DecideStatus(s: AgentState, tools: DecisionAgent.ToolAnswers)
    ensures var d := DecisionAgent.Decide(s, tools);
            d.status != DecisionNotRequired && (d.status == DecisionInsufficient ==> d.recommendation == NeedsMoreData)
  {
    hide DecisionAgent.HarmfulIssues, DecisionAgent.LiftDirection, DecisionAgent.PrimaryWorsened,
      DecisionAgent.BusinessPositive, DecisionAgent.NeedsData, DecisionAgent.Insufficient, DecisionAgent.Gaps,
      DecisionAgent.ErrorIssues, DecisionAgent.Limitations, DecisionAgent.FirstCitations, DecisionAgent.AllCitations,
      DecisionAgent.ScoredConfidence, DecisionAgent.INSUFFICIENT_ISSUES, FirstOccurrences;
  }

  lemma SummaryRepeats(s: AgentState, t: AgentState)
    requires t.summary == SummaryAgent.Build(s) && s.result == None && s.decision == t.decision
    requires s.decision.status != DecisionNotRequired
    requires s.decision.status == DecisionInsufficient ==> s.decision.recommendation == NeedsMoreData
    ensures FinalRecommendation(t) == Recommends(t.decision.recommendation)
  {
    hide SummaryAgent.SummaryCitations;
  }

  lemma NoSummaryPlanned(q: Query)
    requires q.request == None && !FullRun(q)
    ensures ExecutiveSummary !in PlannedAgents(q)
  {
  }

  lemma NoSummaryText(t: AgentState)
    requires t.summary == NO_SUMMARY
    ensures FinalRecommendation(t) == Recommends(t.decision.recommendation)
  {
  }

  // ---------------------------------------------------------------- retrieval

  lemma RetrievalKey(q: Query, s: AgentState, t: AgentState, answer: RetrievalAnswer)
    requires FullRun(q) && NodeKey(Retrieval) !in s.metrics
    requires t == Apply(s, StepUpdate(q, Retrieval, s, RunRetrieval(s, answer)))
    ensures NodeKey(Retrieval) in t.metrics <==> answer.Retrieved?
  {
    DecidingRuns(q);
    hide PlannedAgents;
  }

  lemma OtherKeysStay(node: Node, s: AgentState, u: Update)
    requires node != Retrieval && MergedUpdate(node, s, u)
    ensures NodeKey(Retrieval) in Apply(s, u).metrics <==> NodeKey(Retrieval) in s.metrics
  {
    hide FieldsOwned, LogsOwned;
  }

  lemma NoKeyYet(q: Query)
    ensures NodeKey(Retrieval) !in PlannerState(q).metrics
  {
    hide PlannedAgents, Decimal;
  }

  lemma OnlyFirst(k: nat)
    requires 1 < k < |NODE_ORDER|
    ensures NODE_ORDER[k] != Retrieval && NODE_ORDER[k] != Planner
  {
  }

  lemma {:induction false} RetrievalKeyInRun(q: Query, env: Environment, states: seq<AgentState>, k: nat)
    requires DefaultRun(q, env, states) && FullRun(q) && 0 < k < |NODE_ORDER|
    ensures |states| == 8 && (NodeKey(Retrieval) in states[k].metrics <==> env.retrieval.Retrieved?)
  {
    hide *;
    DefaultRunIsARun(q, env, states);
    OrderNames();
    if k == 1 {
      NoKeyYet(q);
      DefaultStep(q, env, states, 1);
      Dispatch(states[0], env);
      RetrievalKey(q, states[0], states[1], env.retrieval);
    } else {
      RetrievalKeyInRun(q, env, states, k - 1);
      OnlyFirst(k);
      DefaultAgentsBehave(env);
      StepInto(q, DefaultAgents(env), states, k);
      NodeBehaves(NODE_ORDER[k], states[k - 1], DefaultAgents(env));
      OtherKeysStay(NODE_ORDER[k], states[k - 1], NodeUpdate(NODE_ORDER[k], states[k - 1], DefaultAgents(env)));
    }
  }

  /** In a full run retrieval is observed as completed exactly if it answered, and as unknown otherwise. */
  lemma RetrievalObserved(q: Query, env: Environment, states: seq<AgentState>)
    requires DefaultRun(q, env, states) && FullRun(q)
    ensures |states| == 8
    ensures ResultOf(states[7], Retrieval) == RetrievalResult(if env.retrieval.Retrieved? then RetrievalCompleted else RetrievalUnknown)
  {
    hide DefaultRun, PlannerState, NODE_ORDER;
    DefaultRunIsARun(q, env, states);
    DefaultAgentsBehave(env);
    OrderNames();
    RetrievalKeyInRun(q, env, states, 7);
    FullPlan(q, Retrieval);
    InputsKept(q, DefaultAgents(env), states, 7);
  }
}
