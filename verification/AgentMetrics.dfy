/** Scoring one evaluated agent run and summarizing many (packages/evals/agent_metrics.py). */
module AgentMetrics {
  import opened Text
  import opened Counting

  // ---------------------------------------------------------------- one sample

  datatype Expectation = Expectation(
    intent: string, agents: seq<string>, minCitations: Option<int>, decisionStatus: Option<string>,
    recommendation: Option<string>, approvalStatus: Option<string>, summaryStatus: Option<string>)

  datatype Observed = Observed(
    intent: string, agents: seq<string>, citations: nat, decisionStatus: string, recommendation: string,
    approvalStatus: string, summaryStatus: string, success: bool, completeness: real, toolCalls: nat, toolFailures: nat)

  /** `calculate_routing_accuracy` */
  function RoutingAccuracy(expected: seq<string>, actual: seq<string>): real {
    var e, a := AsSet(expected), AsSet(actual);
    if e + a == {} then 1.0 else |e * a| as real / |e + a| as real
  }

  /** `calculate_citation_coverage` */
  function CitationCoverage(expected: Option<int>, actual: nat): real {
    if expected == None || expected.value == 0 then 1.0
    else
      var ratio := actual as real / expected.value as real;
      if ratio < 1.0 then ratio else 1.0
  }

  lemma SubsetSizes(a: set<string>, b: set<string>)
    requires a <= b
    ensures |a| <= |b| && (|a| == |b| <==> a == b)
  {
    assert b == a + (b - a);
    assert |b| == |a| + |b - a|;
    if |a| == |b| {
      assert b - a == {};
    }
  }

  /** The accuracy is the overlap of the two plans: symmetric, between 0 and 1, and 1 exactly for the same agents. */
  lemma RoutingIsOverlap(expected: seq<string>, actual: seq<string>)
    ensures 0.0 <= RoutingAccuracy(expected, actual) <= 1.0
    ensures RoutingAccuracy(expected, actual) == RoutingAccuracy(actual, expected)
    ensures RoutingAccuracy(expected, actual) == 1.0 <==> AsSet(expected) == AsSet(actual)
    ensures RoutingAccuracy(expected, actual) == 0.0 <==>
              AsSet(expected) * AsSet(actual) == {} && AsSet(expected) + AsSet(actual) != {}
  {
    hide AsSet;
    var e, a := AsSet(expected), AsSet(actual);
    assert e + a == a + e && e * a == a * e;
    SubsetSizes(e * a, e + a);
    if e + a != {} {
      assert |e + a| > 0;
      Fraction(|e * a|, |e + a|);
    }
  }

  /** It is the number of agents in both plans over the number of agents in either. */
  lemma RoutingIsShare(expected: seq<string>, actual: seq<string>)
    requires AsSet(expected) + AsSet(actual) != {}
    ensures RoutingAccuracy(expected, actual) * |AsSet(expected) + AsSet(actual)| as real == |AsSet(expected) * AsSet(actual)| as real
  {
    var e, a := AsSet(expected), AsSet(actual);
    assert |e + a| > 0;
    Quotient(|e * a| as real, |e + a| as real);
  }

  lemma Quotient(x: real, y: real)
    requires y != 0.0
    ensures x / y * y == x
  {
  }

  lemma Fraction(n: nat, d: nat)
    requires n <= d && d > 0
    ensures 0.0 <= n as real / d as real <= 1.0
    ensures n as real / d as real == 1.0 <==> n == d
    ensures n as real / d as real == 0.0 <==> n == 0
  {
    var q := n as real / d as real;
    assert q * d as real == n as real;
  }

  datatype Reason =
    | IntentMismatch | RoutingMismatch | CitationsBelow | DecisionMismatch | RecommendationMismatch
    | ApprovalMismatch | SummaryMismatch | WorkflowFailure

  datatype SampleMetrics = SampleMetrics(
    completeness: real, intent: real, routing: real, citationCoverage: real, recommendation: Option<real>,
    success: bool, toolCalls: nat, toolFailures: nat, passed: bool, reasons: seq<Reason>)

  function Matches(same: bool): real { if same then 1.0 else 0.0 }

  /** `calculate_recommendation_coverage`: only where a recommendation was expected. */
  function RecommendationCoverage(expected: Option<string>, actual: string): Option<real> {
    if expected == None then None else Some(Matches(expected.value == actual))
  }

  predicate Meets(expected: Option<string>, actual: string) { expected.Some? ==> expected.value == actual }

  /** Every expectation of the case is met, stated without scores. */
  predicate AsExpected(c: Expectation, o: Observed) {
    && c.intent == o.intent && AsSet(c.agents) == AsSet(o.agents)
    && (c.minCitations == None || c.minCitations.value == 0 || 0 < c.minCitations.value <= o.citations)
    && Meets(c.decisionStatus, o.decisionStatus) && Meets(c.recommendation, o.recommendation)
    && Meets(c.approvalStatus, o.approvalStatus) && Meets(c.summaryStatus, o.summaryStatus)
    && o.success
  }

  lemma FullCoverage(expected: Option<int>, actual: nat)
    ensures CitationCoverage(expected, actual) == 1.0 <==>
              expected == None || expected.value == 0 || 0 < expected.value <= actual
    ensures CitationCoverage(expected, actual) <= 1.0
  {
    if expected.Some? && expected.value != 0 {
      if expected.value > 0 {
        Ratio(actual, expected.value);
      } else {
        NegativeRatio(actual, expected.value);
      }
    }
  }

  /** Below the demanded number the coverage is the share of it. */
  lemma CoverageIsShare(expected: nat, actual: nat)
    requires 0 < expected && actual <= expected
    ensures CitationCoverage(Some(expected), actual) * expected as real == actual as real
  {
    Quotient(actual as real, expected as real);
    Fraction(actual, expected);
  }

  lemma Ratio(n: nat, d: nat)
    requires d > 0
    ensures n as real / d as real >= 1.0 <==> n >= d
  {
    var q := n as real / d as real;
    assert q * d as real == n as real;
    if q < 1.0 && n >= d {
      assert (1.0 - q) * d as real > 0.0;
    }
  }

  lemma NegativeRatio(n: nat, d: int)
    requires d < 0
    ensures n as real / d as real <= 0.0
  {
    var q := n as real / d as real;
    assert q * d as real == n as real;
    if q > 0.0 {
      ProductOfSigns(q, d as real);
    }
  }

  lemma ProductOfSigns(x: real, y: real)
    requires x > 0.0 && y < 0.0
    ensures x * y < 0.0
  {
  }

  /** What each reason says. */
  ghost predicate Misses(reason: Reason, c: Expectation, o: Observed) {
    match reason
    case IntentMismatch => c.intent != o.intent
    case RoutingMismatch => exists agent :: (agent in c.agents) != (agent in o.agents)
    case CitationsBelow => c.minCitations.Some? && (c.minCitations.value < 0 || o.citations < c.minCitations.value)
    case DecisionMismatch => c.decisionStatus !in {None, Some(o.decisionStatus)}
    case RecommendationMismatch => c.recommendation !in {None, Some(o.recommendation)}
    case ApprovalMismatch => c.approvalStatus !in {None, Some(o.approvalStatus)}
    case SummaryMismatch => c.summaryStatus !in {None, Some(o.summaryStatus)}
    case WorkflowFailure => !o.success
  }

  lemma SameAgents(a: seq<string>, b: seq<string>)
    ensures AsSet(a) == AsSet(b) <==> forall agent :: agent in a <==> agent in b
  {
    if AsSet(a) == AsSet(b) {
      forall agent ensures agent in a <==> agent in b {
        assert agent in AsSet(a) <==> agent in AsSet(b);
      }
    }
  }

  /** `if condition: reasons.append(...)` */
  function Noted(condition: bool, reason: Reason): seq<Reason> { if condition then [reason] else [] }

  /** The reasons that the eight checks note are exactly those that hold. */
  lemma NotedReasons(c: Expectation, o: Observed, intent: bool, routing: bool, coverage: bool, recommendation: bool)
    requires intent == (c.intent != o.intent) && routing == (AsSet(c.agents) != AsSet(o.agents))
    requires coverage == !(c.minCitations == None || c.minCitations.value == 0 || 0 < c.minCitations.value <= o.citations)
    requires recommendation == !Meets(c.recommendation, o.recommendation)
    ensures var reasons :=
              [] + Noted(intent, IntentMismatch) + Noted(routing, RoutingMismatch) + Noted(coverage, CitationsBelow)
              + Noted(!Meets(c.decisionStatus, o.decisionStatus), DecisionMismatch) + Noted(recommendation, RecommendationMismatch)
              + Noted(!Meets(c.approvalStatus, o.approvalStatus), ApprovalMismatch)
              + Noted(!Meets(c.summaryStatus, o.summaryStatus), SummaryMismatch) + Noted(!o.success, WorkflowFailure);
            && (forall reason :: reason in reasons <==> Misses(reason, c, o)) && (reasons == [] <==> AsExpected(c, o))
  {
    SameAgents(c.agents, o.agents);
    hide AsSet;
    var reasons :=
      [] + Noted(intent, IntentMismatch) + Noted(routing, RoutingMismatch) + Noted(coverage, CitationsBelow)
      + Noted(!Meets(c.decisionStatus, o.decisionStatus), DecisionMismatch) + Noted(recommendation, RecommendationMismatch)
      + Noted(!Meets(c.approvalStatus, o.approvalStatus), ApprovalMismatch)
      + Noted(!Meets(c.summaryStatus, o.summaryStatus), SummaryMismatch) + Noted(!o.success, WorkflowFailure);
    forall reason ensures reason in reasons <==> Misses(reason, c, o) {
      NotedMember(intent, IntentMismatch, reason);
      NotedMember(routing, RoutingMismatch, reason);
      NotedMember(coverage, CitationsBelow, reason);
      NotedMember(!Meets(c.decisionStatus, o.decisionStatus), DecisionMismatch, reason);
      NotedMember(recommendation, RecommendationMismatch, reason);
      NotedMember(!Meets(c.approvalStatus, o.approvalStatus), ApprovalMismatch, reason);
      NotedMember(!Meets(c.summaryStatus, o.summaryStatus), SummaryMismatch, reason);
      NotedMember(!o.success, WorkflowFailure, reason);
      hide Noted;
    }
  }

  lemma NotedMember(condition: bool, noted: Reason, reason: Reason)
    ensures reason in Noted(condition, noted) <==> condition && reason == noted
  {
  }

  /** `calculate_agent_sample_metrics`: a sample passes exactly when nothing was other than expected. */
  method SampleMetricsOf(c: Expectation, o: Observed) returns (m: SampleMetrics)
    ensures m.passed <==> AsExpected(c, o)
    ensures m.passed <==> m.reasons == []
    ensures m.routing == RoutingAccuracy(c.agents, o.agents) && m.citationCoverage == CitationCoverage(c.minCitations, o.citations)
    ensures m.intent == if c.intent == o.intent then 1.0 else 0.0
    ensures m.recommendation ==
              if c.recommendation == None then None else if c.recommendation.value == o.recommendation then Some(1.0) else Some(0.0)
    ensures forall reason :: reason in m.reasons <==> Misses(reason, c, o)
    ensures m.success == o.success && m.toolCalls == o.toolCalls && m.toolFailures == o.toolFailures
    ensures m.completeness == o.completeness
  {
    RoutingIsOverlap(c.agents, o.agents);
    FullCoverage(c.minCitations, o.citations);
    hide RoutingAccuracy, CitationCoverage, AsSet, Misses, AsExpected;
    var routing, coverage := RoutingAccuracy(c.agents, o.agents), CitationCoverage(c.minCitations, o.citations);
    var intent, recommendation := Matches(c.intent == o.intent), RecommendationCoverage(c.recommendation, o.recommendation);
    var reasons: seq<Reason> := [];
    reasons := reasons + Noted(intent < 1.0, IntentMismatch);
    reasons := reasons + Noted(routing < 1.0, RoutingMismatch);
    reasons := reasons + Noted(coverage < 1.0, CitationsBelow);
    reasons := reasons + Noted(!Meets(c.decisionStatus, o.decisionStatus), DecisionMismatch);
    reasons := reasons + Noted(recommendation == Some(0.0), RecommendationMismatch);
    reasons := reasons + Noted(!Meets(c.approvalStatus, o.approvalStatus), ApprovalMismatch);
    reasons := reasons + Noted(!Meets(c.summaryStatus, o.summaryStatus), SummaryMismatch);
    reasons := reasons + Noted(!o.success, WorkflowFailure);
    assert recommendation == Some(0.0) <==> !Meets(c.recommendation, o.recommendation);
    hide Noted, Meets, Matches, RecommendationCoverage;
    NotedReasons(c, o, intent < 1.0, routing < 1.0, coverage < 1.0, recommendation == Some(0.0));
    m := SampleMetrics(o.completeness, intent, routing, coverage, recommendation, o.success, o.toolCalls, o.toolFailures,
                       reasons == [], reasons);
  }

  // ---------------------------------------------------------------- many samples

  /** An evaluated case: without metrics when its run raised, without an observation when none was taken. */
  datatype Sample = Sample(
    caseId: string, metrics: Option<SampleMetrics>, decisionStatus: Option<string>, approvalStatus: Option<string>)

  datatype Averages = Averages(
    completeness: real, intent: real, routing: real, citationCoverage: real, recommendation: real, toolCalls: real)

  datatype Summary = Summary(
    sampleCount: nat, passCount: nat, failCount: int, successRate: real, averages: Averages,
    toolCalls: nat, toolFailures: nat, decisions: map<string, nat>, approvals: map<string, nat>, failureCases: seq<string>)

  const EMPTY_SUMMARY := Summary(0, 0, 0, 0.0, Averages(0.0, 0.0, 0.0, 0.0, 0.0, 0.0), 0, 0, map[], map[], [])

  /** A figure of a sample, where it has one. */
  type Figure = SampleMetrics -> Option<real>

  function Completeness(m: SampleMetrics): Option<real> { Some(m.completeness) }
  function Intent(m: SampleMetrics): Option<real> { Some(m.intent) }
  function Routing(m: SampleMetrics): Option<real> { Some(m.routing) }
  function Citations(m: SampleMetrics): Option<real> { Some(m.citationCoverage) }
  function Recommendation(m: SampleMetrics): Option<real> { m.recommendation }
  function Calls(m: SampleMetrics): Option<real> { Some(m.toolCalls as real) }

  function FigureOf(s: Sample, figure: Figure): Option<real> {
    match s.metrics
    case None => None
    case Some(m) => figure(m)
  }

  /** The figures of the samples that have them, in order. */
  function Figures(samples: seq<Sample>, figure: Figure): seq<real> {
    if samples == [] then []
    else
      var last := FigureOf(samples[|samples| - 1], figure);
      Figures(samples[..|samples| - 1], figure) + (if last.Some? then [last.value] else [])
  }

  function AverageOf(samples: seq<Sample>, figure: Figure): real {
    match Mean(Figures(samples, figure))
    case None => 0.0
    case Some(mean) => mean
  }

  method Average(samples: seq<Sample>, figure: Figure) returns (average: real)
    ensures average == AverageOf(samples, figure)
  {
    hide Sum;
    var figures: seq<real> := [];
    for i := 0 to |samples|
      invariant figures == Figures(samples[..i], figure)
    {
      assert samples[..i + 1][..i] == samples[..i];
      var value := FigureOf(samples[i], figure);
      if value.Some? {
        figures := figures + [value.value];
      }
    }
    assert samples[..|samples|] == samples;
    var mean := Mean(figures);
    average := if mean.Some? then mean.value else 0.0;
  }

  lemma {:induction false} SumBounds(values: seq<real>)
    requires forall v :: v in values ==> 0.0 <= v <= 1.0
    ensures 0.0 <= Sum(values) <= |values| as real
  {
    if values != [] {
      var n := |values| - 1;
      assert values[n] in values;
      forall v | v in values[..n] ensures 0.0 <= v <= 1.0 { assert v in values; }
      SumBounds(values[..n]);
    }
  }

  lemma {:induction false} FiguresAreFigures(samples: seq<Sample>, figure: Figure)
    ensures forall v :: v in Figures(samples, figure) ==> exists s :: s in samples && FigureOf(s, figure) == Some(v)
  {
    if samples != [] {
      var n := |samples| - 1;
      FiguresAreFigures(samples[..n], figure);
      assert samples == samples[..n] + [samples[n]];
      forall v | v in Figures(samples, figure) ensures exists s :: s in samples && FigureOf(s, figure) == Some(v) {
        if v in Figures(samples[..n], figure) {
          var s :| s in samples[..n] && FigureOf(s, figure) == Some(v);
          assert s in samples;
        } else {
          assert samples[n] in samples;
        }
      }
    }
  }

  /** The average of shares is a share. */
  lemma AverageIsShare(samples: seq<Sample>, figure: Figure)
    requires forall s :: s in samples && FigureOf(s, figure).Some? ==> 0.0 <= FigureOf(s, figure).value <= 1.0
    ensures 0.0 <= AverageOf(samples, figure) <= 1.0
  {
    FiguresAreFigures(samples, figure);
    var figures := Figures(samples, figure);
    SumBounds(figures);
    hide Figures, Sum;
    if figures != [] {
      Share(Sum(figures), |figures|);
    }
  }

  lemma Share(sum: real, n: nat)
    requires n > 0 && 0.0 <= sum <= n as real
    ensures 0.0 <= sum / n as real <= 1.0
  {
    var q := sum / n as real;
    assert q * n as real == sum;
  }

  predicate HasMetrics(s: Sample) { s.metrics.Some? }
  predicate Passed(s: Sample) { s.metrics.Some? && s.metrics.value.passed }
  predicate Succeeded(s: Sample) { s.metrics.Some? && s.metrics.value.success }
  predicate NotPassed(s: Sample) { !Passed(s) }

  /** The ids of the samples that have no metrics or did not pass, in order. */
  function FailureCases(samples: seq<Sample>): seq<string> {
    if samples == [] then []
    else
      var last := samples[|samples| - 1];
      FailureCases(samples[..|samples| - 1]) + (if NotPassed(last) then [last.caseId] else [])
  }

  function CallTotal(samples: seq<Sample>): nat {
    if samples == [] then 0
    else CallTotal(samples[..|samples| - 1])
         + if HasMetrics(samples[|samples| - 1]) then samples[|samples| - 1].metrics.value.toolCalls else 0
  }

  function FailedCallTotal(samples: seq<Sample>): nat {
    if samples == [] then 0
    else FailedCallTotal(samples[..|samples| - 1])
         + if HasMetrics(samples[|samples| - 1]) then samples[|samples| - 1].metrics.value.toolFailures else 0
  }

  /** The totals are those of the samples: nothing without metrics counts, and totals of parts add up. */
  lemma {:induction false} TotalsAdd(a: seq<Sample>, b: seq<Sample>)
    ensures CallTotal(a + b) == CallTotal(a) + CallTotal(b) && FailedCallTotal(a + b) == FailedCallTotal(a) + FailedCallTotal(b)
    ensures forall s :: CallTotal([s]) == (if s.metrics.Some? then s.metrics.value.toolCalls else 0)
                        && FailedCallTotal([s]) == if s.metrics.Some? then s.metrics.value.toolFailures else 0
  {
    forall s ensures CallTotal([s]) == (if s.metrics.Some? then s.metrics.value.toolCalls else 0)
                     && FailedCallTotal([s]) == if s.metrics.Some? then s.metrics.value.toolFailures else 0 {
      var none: seq<Sample> := [];
      assert [s][..0] == none;
      assert CallTotal(none) == 0 && FailedCallTotal(none) == 0;
    }
    if b == [] {
      assert a + b == a;
    } else {
      var n := |b| - 1;
      assert (a + b)[..|a| + n] == a + b[..n];
      TotalsAdd(a, b[..n]);
    }
  }

  /** The tool calls per sample with metrics, times these samples, are all tool calls. */
  lemma {:induction false} CallsSum(samples: seq<Sample>)
    ensures Sum(Figures(samples, Calls)) == CallTotal(samples) as real && |Figures(samples, Calls)| == Count(HasMetrics, samples)
  {
    if samples != [] {
      var n := |samples| - 1;
      CallsSum(samples[..n]);
      var before := Figures(samples[..n], Calls);
      if HasMetrics(samples[n]) {
        SumSnoc(before, samples[n].metrics.value.toolCalls as real);
      } else {
        assert before + [] == before;
      }
    }
  }

  lemma CallAverage(samples: seq<Sample>)
    requires Count(HasMetrics, samples) > 0
    ensures AverageOf(samples, Calls) * Count(HasMetrics, samples) as real == CallTotal(samples) as real
  {
    CallsSum(samples);
    hide Sum, Figures, Count, CallTotal;
    MeanExactly(Figures(samples, Calls));
  }

  /** Some sample has the figure, and it is this for all that have it. */
  ghost predicate Constantly(samples: seq<Sample>, figure: Figure, v: real) {
    && (forall s :: s in samples ==> FigureOf(s, figure) in {None, Some(v)})
    && exists s :: s in samples && FigureOf(s, figure) == Some(v)
  }

  /** The average over the samples that have the figure; a figure that is everywhere the same is its own average. */
  lemma AverageExactly(samples: seq<Sample>, figure: Figure, v: real)
    ensures (forall s :: s in samples ==> FigureOf(s, figure) == None) ==> AverageOf(samples, figure) == 0.0
    ensures Constantly(samples, figure, v) ==> AverageOf(samples, figure) == v
  {
    FiguresAreFigures(samples, figure);
    FiguresOccur(samples, figure);
    var figures := Figures(samples, figure);
    MeanExactly(figures);
    if figures != [] {
      FigureComesFrom(samples, figure, figures[0]);
    }
    hide Figures, Sum, Mean, FigureOf;
    if Constantly(samples, figure, v) {
      MeanOfSame(figures, v);
    }
  }

  lemma FigureComesFrom(samples: seq<Sample>, figure: Figure, v: real)
    requires v in Figures(samples, figure)
    ensures exists s :: s in samples && FigureOf(s, figure) == Some(v)
  {
    FiguresAreFigures(samples, figure);
    hide Figures;
  }

  lemma {:induction false} FiguresOccur(samples: seq<Sample>, figure: Figure)
    ensures forall s :: s in samples && FigureOf(s, figure).Some? ==> FigureOf(s, figure).value in Figures(samples, figure)
  {
    if samples != [] {
      var n := |samples| - 1;
      FiguresOccur(samples[..n], figure);
      assert samples == samples[..n] + [samples[n]];
    }
  }

  /** The failure list names exactly the cases without metrics and those that did not pass. */
  lemma {:induction false} FailuresAreNamed(samples: seq<Sample>)
    ensures forall id :: id in FailureCases(samples) <==>
              exists s :: s in samples && s.caseId == id && (s.metrics == None || !s.metrics.value.passed)
  {
    if samples != [] {
      var n := |samples| - 1;
      FailuresAreNamed(samples[..n]);
      assert samples == samples[..n] + [samples[n]];
    }
  }

  /** The distribution of a status: for each value that occurs, how often. */
  ghost predicate Distributes(samples: seq<Sample>, status: Sample -> Option<string>, counts: map<string, nat>) {
    && (forall v :: v in counts <==> Count(Has(status, v), samples) > 0)
    && forall v :: v in counts ==> counts[v] == Count(Has(status, v), samples)
  }

  function Has(status: Sample -> Option<string>, v: string): (Sample -> bool) { (s: Sample) => status(s) == Some(v) }
  function DecisionStatus(s: Sample): Option<string> { s.decisionStatus }
  function ApprovalStatus(s: Sample): Option<string> { s.approvalStatus }

  method Distribution(samples: seq<Sample>, status: Sample -> Option<string>) returns (counts: map<string, nat>)
    ensures Distributes(samples, status, counts)
  {
    counts := map[];
    for i := 0 to |samples|
      invariant forall v :: CountIn(counts, v) == Count(Has(status, v), samples[..i])
      invariant forall v :: v in counts ==> counts[v] > 0
    {
      assert samples[..i + 1] == samples[..i] + [samples[i]];
      forall v
        ensures Count(Has(status, v), samples[..i + 1])
             == Count(Has(status, v), samples[..i]) + if status(samples[i]) == Some(v) then 1 else 0
      {
        CountSnoc(Has(status, v), samples[..i], samples[i]);
      }
      hide Count;
      var current := status(samples[i]);
      if current.Some? {
        counts := counts[current.value := CountIn(counts, current.value) + 1];
      }
    }
    assert samples[..|samples|] == samples;
  }

  function CountIn(counts: map<string, nat>, v: string): nat { if v in counts then counts[v] else 0 }

  /** The figures counted over the samples. */
  method CountSamples(samples: seq<Sample>)
    returns (withMetrics: nat, passes: nat, successes: nat, calls: nat, failedCalls: nat, failures: seq<string>)
    ensures withMetrics == Count(HasMetrics, samples) && passes == Count(Passed, samples) && successes == Count(Succeeded, samples)
    ensures calls == CallTotal(samples) && failedCalls == FailedCallTotal(samples) && failures == FailureCases(samples)
  {
    withMetrics, passes, successes, calls, failedCalls, failures := 0, 0, 0, 0, 0, [];
    for i := 0 to |samples|
      invariant withMetrics == Count(HasMetrics, samples[..i]) && passes == Count(Passed, samples[..i])
      invariant successes == Count(Succeeded, samples[..i])
      invariant calls == CallTotal(samples[..i]) && failedCalls == FailedCallTotal(samples[..i])
      invariant failures == FailureCases(samples[..i])
    {
      assert samples[..i + 1][..i] == samples[..i];
      var sample := samples[i];
      if sample.metrics.Some? {
        withMetrics := withMetrics + 1;
        calls, failedCalls := calls + sample.metrics.value.toolCalls, failedCalls + sample.metrics.value.toolFailures;
        passes := passes + if sample.metrics.value.passed then 1 else 0;
        successes := successes + if sample.metrics.value.success then 1 else 0;
      }
      if sample.metrics == None || !sample.metrics.value.passed {
        failures := failures + [sample.caseId];
      }
    }
    assert samples[..|samples|] == samples;
  }

  /** What a summary of samples holds: nothing at all when no sample has metrics. */
  ghost predicate Summarizes(samples: seq<Sample>, s: Summary) {
    if Count(HasMetrics, samples) == 0 then s == EMPTY_SUMMARY
    else
      && s.sampleCount == |samples| && s.passCount == Count(Passed, samples)
      && s.failCount == |samples| - Count(Passed, samples) && s.failureCases == FailureCases(samples)
      && s.successRate == Count(Succeeded, samples) as real / Count(HasMetrics, samples) as real
      && s.averages == Averages(AverageOf(samples, Completeness), AverageOf(samples, Intent), AverageOf(samples, Routing),
                                AverageOf(samples, Citations), AverageOf(samples, Recommendation), AverageOf(samples, Calls))
      && s.toolCalls == CallTotal(samples) && s.toolFailures == FailedCallTotal(samples)
      && Distributes(samples, DecisionStatus, s.decisions) && Distributes(samples, ApprovalStatus, s.approvals)
  }

  /** `from_samples`: when no sample has metrics, even a non-empty list is summarized as empty. */
  method FromSamples(samples: seq<Sample>) returns (s: Summary)
    ensures Summarizes(samples, s)
  {
    hide Distributes, CallTotal, FailedCallTotal, FailureCases, Count, AverageOf;
    var withMetrics, passes, successes, calls, failedCalls, failures := CountSamples(samples);
    if withMetrics == 0 {
      return EMPTY_SUMMARY;
    }
    var decisions := Distribution(samples, DecisionStatus);
    var approvals := Distribution(samples, ApprovalStatus);
    var completeness := Average(samples, Completeness);
    var intent := Average(samples, Intent);
    var routing := Average(samples, Routing);
    var citations := Average(samples, Citations);
    var recommendation := Average(samples, Recommendation);
    var perSample := Average(samples, Calls);
    s := Summary(|samples|, passes, |samples| - passes, successes as real / withMetrics as real,
                 Averages(completeness, intent, routing, citations, recommendation, perSample), calls, failedCalls,
                 decisions, approvals, failures);
  }

  lemma {:induction false} FailuresArePassComplement(samples: seq<Sample>)
    ensures Count(Passed, samples) + |FailureCases(samples)| == |samples|
    ensures Count(Succeeded, samples) <= Count(HasMetrics, samples) && Count(Passed, samples) <= Count(HasMetrics, samples)
  {
    if samples != [] {
      FailuresArePassComplement(samples[..|samples| - 1]);
    }
  }

  /**
   Passes and failures add up to the samples and the failure list has one entry per failure. The
   sample count is the number of samples exactly when there are none or some sample has metrics:
   when every run raised, the failures vanish from the summary.
   */
  lemma SummaryAddsUp(samples: seq<Sample>, s: Summary)
    requires Summarizes(samples, s)
    ensures s.passCount + s.failCount == s.sampleCount && |s.failureCases| == s.failCount
    ensures s.sampleCount == |samples| <==> samples == [] || exists x :: x in samples && HasMetrics(x)
    ensures 0.0 <= s.successRate <= 1.0
  {
    FailuresArePassComplement(samples);
    CountNone(HasMetrics, samples);
    if Count(HasMetrics, samples) > 0 {
      Fraction(Count(Succeeded, samples), Count(HasMetrics, samples));
    }
  }

  /** One sample whose run raised is summarized as no sample, and so as no failure. */
  lemma FailuresCanVanish(caseId: string, s: Summary)
    requires Summarizes([Sample(caseId, None, None, None)], s)
    ensures s.sampleCount == 0 && s.failCount == 0 && FailureCases([Sample(caseId, None, None, None)]) == [caseId]
  {
    CountNone(HasMetrics, [Sample(caseId, None, None, None)]);
    assert [Sample(caseId, None, None, None)][..0] == [];
  }

  function HasStatus(status: Sample -> Option<string>): (Sample -> bool) { (s: Sample) => status(s).Some? }

  /** The counts of a distribution, for each status that a sample can have. */
  function CountsOf(counts: map<string, nat>): Option<string> -> nat {
    (v: Option<string>) => if v.Some? then CountIn(counts, v.value) else 0
  }

  lemma {:induction false} GroupIsCount(samples: seq<Sample>, status: Sample -> Option<string>, v: string)
    ensures Count(HasStatus(status), Group(samples, status, Some(v))) == Count(Has(status, v), samples)
  {
    if samples != [] {
      var n := |samples| - 1;
      GroupIsCount(samples[..n], status, v);
      var before := Group(samples[..n], status, Some(v));
      GroupSnoc(samples[..n], samples[n], status, Some(v));
      assert samples == samples[..n] + [samples[n]];
      hide Group;
      CountSnoc(HasStatus(status), before, samples[n]);
      CountSnoc(Has(status, v), samples[..n], samples[n]);
      assert before + [] == before;
    }
  }

  /** A distribution of any status accounts for every sample that has one. */
  lemma DistributionsAddUp(samples: seq<Sample>, status: Sample -> Option<string>, counts: map<string, nat>,
                           values: seq<Option<string>>)
    requires Distributes(samples, status, counts)
    requires Distinct(values) && forall v :: v in values <==> v.Some? && v.value in counts
    ensures Total(CountsOf(counts), values) == Count(HasStatus(status), samples)
  {
    hide Count, Total, Group;
    var rest := (s: Sample) => HasStatus(status)(s) && status(s) !in values;
    GroupsAddUpWithin(HasStatus(status), rest, samples, status, values);
    forall s | s in samples ensures !rest(s) {
      if status(s).Some? {
        CountNone(Has(status, status(s).value), samples);
        assert Has(status, status(s).value)(s);
      }
    }
    CountNone(rest, samples);
    forall v | v in values ensures GroupCounts(HasStatus(status), samples, status)(v) == CountsOf(counts)(v) {
      GroupIsCount(samples, status, v.value);
      assert v == Some(v.value);
    }
    TotalAgrees(CountsOf(counts), GroupCounts(HasStatus(status), samples, status), values);
  }
}
