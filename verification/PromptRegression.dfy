/** Comparing two prompt versions on recorded retrievals (packages/evals/prompt_regression.py). */
module PromptRegression {
  import opened Text
  import opened Counting

  // ---------------------------------------------------------------- recording and replaying

  datatype Request = Request(experimentId: string, query: string, topK: int)

  /** The dictionary key of a request: the query is stripped. */
  function KeyOf(r: Request): Request { r.(query := Strip(r.query)) }

  /** A response with the metrics the service reported for it. */
  datatype Answer<R, M> = Answer(response: R, metrics: M)

  /** `_RecordingRetrievalService`; `answer` is what the wrapped service returns this time. */
  class RecordingService<R, M> {
    var recorded: map<Request, Answer<R, M>>
    var lastMetrics: Option<M>

    constructor (lastMetrics: Option<M>)
      ensures recorded == map[] && this.lastMetrics == lastMetrics
    {
      recorded, this.lastMetrics := map[], lastMetrics;
    }

    method Search(request: Request, answer: Answer<R, M>) returns (response: R)
      modifies this
      ensures response == answer.response && lastMetrics == Some(answer.metrics)
      ensures recorded == old(recorded)[KeyOf(request) := answer]
    {
      lastMetrics := Some(answer.metrics);
      recorded := recorded[KeyOf(request) := answer];
      response := answer.response;
    }

    /** A whole run against the wrapped service. */
    method SearchAll(requests: seq<Request>, answers: seq<Answer<R, M>>) returns (responses: seq<R>)
      requires |answers| == |requests| && recorded == map[]
      modifies this
      ensures recorded == Recorded(requests, answers)
      ensures |responses| == |answers| && forall i :: 0 <= i < |answers| ==> responses[i] == answers[i].response
    {
      responses := [];
      for i := 0 to |requests|
        invariant recorded == Recorded(requests[..i], answers[..i])
        invariant |responses| == i && forall k :: 0 <= k < i ==> responses[k] == answers[k].response
      {
        assert requests[..i + 1][..i] == requests[..i] && answers[..i + 1][..i] == answers[..i];
        var response := Search(requests[i], answers[i]);
        responses := responses + [response];
      }
      assert requests[..|requests|] == requests && answers[..|requests|] == answers;
    }
  }

  /** What a recording holds after a sequence of requests: later answers replace earlier ones of the same key. */
  function Recorded<R, M>(requests: seq<Request>, answers: seq<Answer<R, M>>): map<Request, Answer<R, M>>
    requires |answers| == |requests|
  {
    if requests == [] then map[]
    else
      var n := |requests| - 1;
      Recorded(requests[..n], answers[..n])[KeyOf(requests[n]) := answers[n]]
  }

  /** `_ReplayRetrievalService`; a missing key raises and leaves the service as it was. */
  class ReplayService<R, M> {
    const recorded: map<Request, Answer<R, M>>
    var lastMetrics: Option<M>

    constructor (recorded: map<Request, Answer<R, M>>)
      ensures this.recorded == recorded && lastMetrics == None
    {
      this.recorded, lastMetrics := recorded, None;
    }

    method Search(request: Request) returns (result: Result<R, Request>)
      modifies this
      ensures KeyOf(request) in recorded ==>
                result == Ok(recorded[KeyOf(request)].response) && lastMetrics == Some(recorded[KeyOf(request)].metrics)
      ensures KeyOf(request) !in recorded ==> result == Err(KeyOf(request)) && lastMetrics == old(lastMetrics)
    {
      var key := KeyOf(request);
      if key !in recorded {
        return Err(key);
      }
      lastMetrics := Some(recorded[key].metrics);
      return Ok(recorded[key].response);
    }
  }

  /** Exactly the requests that were recorded, up to outer whitespace of the query, can be replayed. */
  lemma {:induction false} ReplayableExactly<R, M>(requests: seq<Request>, answers: seq<Answer<R, M>>, request: Request)
    requires |answers| == |requests|
    ensures KeyOf(request) in Recorded(requests, answers) <==> exists i :: 0 <= i < |requests| && KeyOf(requests[i]) == KeyOf(request)
  {
    hide KeyOf;
    if requests != [] {
      var n := |requests| - 1;
      ReplayableExactly(requests[..n], answers[..n], request);
      if i :| 0 <= i < n && KeyOf(requests[..n][i]) == KeyOf(request) {
        assert requests[i] == requests[..n][i];
      }
      if i :| 0 <= i < |requests| && KeyOf(requests[i]) == KeyOf(request) && KeyOf(requests[n]) != KeyOf(request) {
        assert requests[..n][i] == requests[i];
      }
    }
  }

  /** The answer kept for a key is the last one given for it. */
  lemma {:induction false} LastAnswerIsKept<R, M>(requests: seq<Request>, answers: seq<Answer<R, M>>, i: nat)
    requires |answers| == |requests| && i < |requests|
    requires forall j :: i < j < |requests| ==> KeyOf(requests[j]) != KeyOf(requests[i])
    ensures KeyOf(requests[i]) in Recorded(requests, answers) && Recorded(requests, answers)[KeyOf(requests[i])] == answers[i]
  {
    hide KeyOf;
    var n := |requests| - 1;
    if i < n {
      assert KeyOf(requests[n]) != KeyOf(requests[i]);
      LastAnswerIsKept(requests[..n], answers[..n], i);
    }
  }

  lemma {:induction false} SomeAnswerIsKept<R, M>(requests: seq<Request>, answers: seq<Answer<R, M>>, key: Request)
    returns (i: nat)
    requires |answers| == |requests| && key in Recorded(requests, answers)
    ensures i < |requests| && KeyOf(requests[i]) == key && Recorded(requests, answers)[key] == answers[i]
  {
    hide KeyOf;
    var n := |requests| - 1;
    if KeyOf(requests[n]) == key {
      i := n;
    } else {
      i := SomeAnswerIsKept(requests[..n], answers[..n], key);
    }
  }

  /** Requests with the same key got the same answer when they were recorded. */
  ghost predicate Consistent<R, M>(requests: seq<Request>, answers: seq<Answer<R, M>>)
    requires |answers| == |requests|
  {
    forall i, j :: 0 <= i < |requests| && 0 <= j < |requests| && KeyOf(requests[i]) == KeyOf(requests[j]) ==> answers[i] == answers[j]
  }

  /** Replaying a recorded sequence gives every request the answer it had. */
  ghost predicate Replays<R, M>(requests: seq<Request>, answers: seq<Answer<R, M>>)
    requires |answers| == |requests|
  {
    forall i :: 0 <= i < |requests| ==>
      KeyOf(requests[i]) in Recorded(requests, answers) && Recorded(requests, answers)[KeyOf(requests[i])] == answers[i]
  }

  /** A recording replays faithfully exactly when same-key requests were answered alike. */
  lemma ReplayIsFaithfulExactly<R, M>(requests: seq<Request>, answers: seq<Answer<R, M>>)
    requires |answers| == |requests|
    ensures Replays(requests, answers) <==> Consistent(requests, answers)
  {
    hide KeyOf, Recorded;
    if Consistent(requests, answers) {
      forall i | 0 <= i < |requests|
        ensures KeyOf(requests[i]) in Recorded(requests, answers) && Recorded(requests, answers)[KeyOf(requests[i])] == answers[i]
      {
        ReplayableExactly(requests, answers, requests[i]);
        var j := SomeAnswerIsKept(requests, answers, KeyOf(requests[i]));
      }
    }
  }

  /** A deterministic service that ignores outer whitespace of the query always replays faithfully. */
  lemma DeterministicServicesReplay<R, M>(service: Request -> Answer<R, M>, requests: seq<Request>,
                                          answers: seq<Answer<R, M>>)
    requires |answers| == |requests| && forall r: Request :: service(r) == service(KeyOf(r))
    requires forall i :: 0 <= i < |requests| ==> answers[i] == service(requests[i])
    ensures Replays(requests, answers)
  {
    hide KeyOf, Replays;
    ReplayIsFaithfulExactly(requests, answers);
    forall i, j | 0 <= i < |requests| && 0 <= j < |requests| && KeyOf(requests[i]) == KeyOf(requests[j])
      ensures answers[i] == answers[j]
    {
      assert service(requests[i]) == service(KeyOf(requests[i]));
      assert service(requests[j]) == service(KeyOf(requests[j]));
    }
  }

  // ---------------------------------------------------------------- comparing scores

  datatype MetricScore = MetricScore(baseline: real, candidate: real, delta: real, regression: bool, improvement: bool)

  function ScoreOf(baseline: real, candidate: real): MetricScore {
    MetricScore(baseline, candidate, candidate - baseline, candidate < baseline, candidate > baseline)
  }

  datatype Comparison = Comparison(scores: map<string, MetricScore>, regression: bool, improvement: bool)

  /** The candidate has a smaller value than the baseline for some metric of the baseline. */
  predicate Fell(baseline: map<string, real>, candidate: map<string, real>) {
    exists name :: name in baseline && name in candidate && candidate[name] < baseline[name]
  }

  predicate Rose(baseline: map<string, real>, candidate: map<string, real>) {
    exists name :: name in baseline && name in candidate && baseline[name] < candidate[name]
  }

  /** A score says how the candidate's value lies to the baseline's: its delta is their difference, and its flags are its sign. */
  ghost predicate Scores(s: MetricScore, baseline: real, candidate: real) {
    && s.baseline == baseline && s.candidate == candidate && s.delta + baseline == candidate
    && (s.regression <==> s.delta < 0.0) && (s.improvement <==> s.delta > 0.0)
  }

  /** Every metric of the baseline is scored; the comparison regresses exactly if a value fell and improves exactly if one rose. */
  ghost predicate Compares(baseline: map<string, real>, candidate: map<string, real>, c: Comparison) {
    && baseline.Keys <= candidate.Keys && c.scores.Keys == baseline.Keys
    && (forall name :: name in baseline ==> Scores(c.scores[name], baseline[name], candidate[name]))
    && (c.regression <==> Fell(baseline, candidate)) && (c.improvement <==> Rose(baseline, candidate))
  }

  /** `_compare_scores`: a candidate without one of the baseline's metrics raises. */
  method CompareScores(baseline: map<string, real>, candidate: map<string, real>)
    returns (result: Result<Comparison, string>)
    ensures result.Ok? <==> baseline.Keys <= candidate.Keys
    ensures result.Ok? ==> Compares(baseline, candidate, result.value)
    ensures result.Err? ==> result.error in baseline && result.error !in candidate
  {
    var scores: map<string, MetricScore>, regression, improvement := map[], false, false;
    var todo := baseline.Keys;
    while todo != {}
      invariant todo <= baseline.Keys && baseline.Keys - todo <= candidate.Keys
      invariant scores.Keys == baseline.Keys - todo
      invariant forall name :: name in scores ==> Scores(scores[name], baseline[name], candidate[name])
      invariant regression <==> exists name :: name in scores && candidate[name] < baseline[name]
      invariant improvement <==> exists name :: name in scores && baseline[name] < candidate[name]
      decreases todo
    {
      var name :| name in todo;
      todo := todo - {name};
      if name !in candidate {
        return Err(name);
      }
      var score := ScoreOf(baseline[name], candidate[name]);
      ghost var before := scores;
      scores := scores[name := score];
      assert scores[name] == score && forall other :: other in before ==> other in scores && scores[other] == before[other];
      regression := regression || score.regression;
      improvement := improvement || score.improvement;
    }
    return Ok(Comparison(scores, regression, improvement));
  }

  /** The score, the comparison as seen from the other version. */
  function SwapScore(s: MetricScore): MetricScore {
    MetricScore(s.candidate, s.baseline, -s.delta, s.improvement, s.regression)
  }

  function SwapScores(scores: map<string, MetricScore>): map<string, MetricScore> {
    map name | name in scores :: SwapScore(scores[name])
  }

  /** Comparing the versions the other way round swaps every score and both flags. */
  lemma SwappingSwaps(a: map<string, real>, b: map<string, real>, forth: Comparison, back: Comparison)
    requires a.Keys == b.Keys && Compares(a, b, forth) && Compares(b, a, back)
    ensures back == Comparison(SwapScores(forth.scores), forth.improvement, forth.regression)
  {
    forall name | name in a ensures back.scores[name] == SwapScore(forth.scores[name]) {
      assert Scores(forth.scores[name], a[name], b[name]) && Scores(back.scores[name], b[name], a[name]);
    }
    assert back.scores == SwapScores(forth.scores);
  }

  // ---------------------------------------------------------------- summarizing the cases

  datatype CaseResult = CaseResult(scores: map<string, MetricScore>, regression: bool, improvement: bool, failed: bool)

  datatype MetricSummary = MetricSummary(
    name: string, baseline: Option<real>, candidate: Option<real>, delta: Option<real>, regressions: nat, improvements: nat)

  /** The values of one metric, in the order of the cases that have it. */
  function Values(cases: seq<CaseResult>, name: string, pick: MetricScore -> real): seq<real> {
    if cases == [] then []
    else
      var last := cases[|cases| - 1];
      Values(cases[..|cases| - 1], name, pick) + (if name in last.scores then [pick(last.scores[name])] else [])
  }

  function Baseline(score: MetricScore): real { score.baseline }
  function Candidate(score: MetricScore): real { score.candidate }
  function Delta(score: MetricScore): real { score.delta }

  function Regresses(name: string): (CaseResult -> bool) { (c: CaseResult) => name in c.scores && c.scores[name].regression }
  function Improves(name: string): (CaseResult -> bool) { (c: CaseResult) => name in c.scores && c.scores[name].improvement }

  function SummaryOf(cases: seq<CaseResult>, name: string): MetricSummary {
    var baseline, candidate := Mean(Values(cases, name, Baseline)), Mean(Values(cases, name, Candidate));
    MetricSummary(
      name, baseline, candidate,
      if baseline.Some? && candidate.Some? then Some(candidate.value - baseline.value) else None,
      Count(Regresses(name), cases), Count(Improves(name), cases))
  }

  /** `sorted(...)` of a set of names. */
  method SortedSet(names: set<string>) returns (sorted: seq<string>)
    ensures Increasing(sorted) && forall name :: name in sorted <==> name in names
  {
    sorted := [];
    var todo := names;
    while todo != {}
      invariant todo <= names && Increasing(sorted)
      invariant forall name :: name in sorted <==> name in names - todo
      decreases todo
    {
      hide Less, Insert;
      var name :| name in todo;
      InsertKeeps(name, sorted);
      sorted := Insert(name, sorted);
      todo := todo - {name};
    }
  }

  function NamesIn(cases: seq<CaseResult>): set<string> { set c, name | c in cases && name in c.scores :: name }

  method CollectNames(cases: seq<CaseResult>) returns (names: set<string>)
    ensures names == NamesIn(cases)
  {
    names := {};
    for i := 0 to |cases|
      invariant names == NamesIn(cases[..i])
    {
      assert cases[..i + 1] == cases[..i] + [cases[i]];
      assert NamesIn(cases[..i + 1]) == NamesIn(cases[..i]) + cases[i].scores.Keys;
      names := names + cases[i].scores.Keys;
    }
    assert cases[..|cases|] == cases;
  }

  /** One metric's figures, gathered in one pass over the cases. */
  method SummarizeMetric(cases: seq<CaseResult>, name: string) returns (summary: MetricSummary)
    ensures summary == SummaryOf(cases, name)
  {
    hide Sum;
    var baselines: seq<real>, candidates: seq<real> := [], [];
    var regressions: nat, improvements: nat := 0, 0;
    for i := 0 to |cases|
      invariant baselines == Values(cases[..i], name, Baseline) && candidates == Values(cases[..i], name, Candidate)
      invariant regressions == Count(Regresses(name), cases[..i]) && improvements == Count(Improves(name), cases[..i])
    {
      assert cases[..i + 1][..i] == cases[..i];
      if name in cases[i].scores {
        var score := cases[i].scores[name];
        baselines, candidates := baselines + [score.baseline], candidates + [score.candidate];
        regressions := regressions + if score.regression then 1 else 0;
        improvements := improvements + if score.improvement then 1 else 0;
      }
    }
    assert cases[..|cases|] == cases;
    var baseline, candidate := Mean(baselines), Mean(candidates);
    var delta: Option<real> := None;
    if baseline.Some? && candidate.Some? {
      delta := Some(candidate.value - baseline.value);
    }
    summary := MetricSummary(name, baseline, candidate, delta, regressions, improvements);
  }

  /** `_summarize_case_metrics`: one row for every metric of some case, by name. */
  method SummarizeCaseMetrics(cases: seq<CaseResult>) returns (rows: seq<MetricSummary>)
    ensures forall i :: 0 <= i < |rows| ==> rows[i] == SummaryOf(cases, rows[i].name)
    ensures forall i, j :: 0 <= i < j < |rows| ==> Less(rows[i].name, rows[j].name)
    ensures forall name :: name in NamesIn(cases) <==> exists i :: 0 <= i < |rows| && rows[i].name == name
  {
    hide SummaryOf, Less;
    var collected := CollectNames(cases);
    var names := SortedSet(collected);
    rows := [];
    for i := 0 to |names|
      invariant |rows| == i && forall k :: 0 <= k < i ==> rows[k].name == names[k] && rows[k] == SummaryOf(cases, names[k])
    {
      var row := SummarizeMetric(cases, names[i]);
      NameOfSummary(cases, names[i]);
      rows := rows + [row];
    }
    forall name | name in NamesIn(cases) ensures exists i :: 0 <= i < |rows| && rows[i].name == name {
      var i :| 0 <= i < |names| && names[i] == name;
      assert rows[i].name == name;
    }
  }

  lemma NameOfSummary(cases: seq<CaseResult>, name: string)
    ensures SummaryOf(cases, name).name == name
  {
    hide Mean, Values, Count;
  }

  /** Every score was made by `_compare_scores`. */
  ghost predicate FromComparisons(cases: seq<CaseResult>) {
    forall c, name :: c in cases && name in c.scores ==> Scores(c.scores[name], c.scores[name].baseline, c.scores[name].candidate)
  }

  lemma {:induction false} DeltasOfValues(cases: seq<CaseResult>, name: string)
    requires FromComparisons(cases)
    ensures var b, c, d := Values(cases, name, Baseline), Values(cases, name, Candidate), Values(cases, name, Delta);
            && |b| == |c| == |d| && Sum(d) == Sum(c) - Sum(b)
            && (b == [] <==> name !in NamesIn(cases))
  {
    if cases != [] {
      var before, last := cases[..|cases| - 1], cases[|cases| - 1];
      assert cases == before + [last] && last in cases;
      DeltasOfValues(before, name);
      if name in last.scores {
        SumSnoc(Values(before, name, Baseline), last.scores[name].baseline);
        SumSnoc(Values(before, name, Candidate), last.scores[name].candidate);
        SumSnoc(Values(before, name, Delta), last.scores[name].delta);
        assert name in NamesIn(cases);
      } else {
        assert NamesIn(cases) == NamesIn(before) + last.scores.Keys;
        assert Values(before, name, Baseline) + [] == Values(before, name, Baseline);
        assert Values(before, name, Candidate) + [] == Values(before, name, Candidate);
        assert Values(before, name, Delta) + [] == Values(before, name, Delta);
      }
    }
  }

  lemma QuotientsSubtract(a: real, b: real, n: real)
    requires n != 0.0
    ensures a / n - b / n == (a - b) / n
  {
  }

  /** A summary's delta, a difference of two means, is the mean of the cases' deltas. */
  lemma DeltaIsMeanOfDeltas(cases: seq<CaseResult>, name: string)
    requires FromComparisons(cases)
    ensures SummaryOf(cases, name).delta == Mean(Values(cases, name, Delta))
    ensures SummaryOf(cases, name).delta.Some? <==> name in NamesIn(cases)
  {
    DeltasOfValues(cases, name);
    hide Values, Sum, FromComparisons, NamesIn, Count;
    var b, c := Values(cases, name, Baseline), Values(cases, name, Candidate);
    if b != [] {
      QuotientsSubtract(Sum(c), Sum(b), |b| as real);
    }
  }

  lemma {:induction false} ValuesOfSame(cases: seq<CaseResult>, name: string, pick: MetricScore -> real, v: real)
    requires forall c :: c in cases && name in c.scores ==> pick(c.scores[name]) == v
    ensures forall x :: x in Values(cases, name, pick) ==> x == v
    ensures Values(cases, name, pick) != [] <==> name in NamesIn(cases)
  {
    if cases != [] {
      var before, last := cases[..|cases| - 1], cases[|cases| - 1];
      assert cases == before + [last];
      ValuesOfSame(before, name, pick, v);
      assert NamesIn(cases) == NamesIn(before) + last.scores.Keys;
    }
  }

  predicate FallsIn(name: string, c: CaseResult) { name in c.scores && c.scores[name].candidate < c.scores[name].baseline }
  predicate RisesIn(name: string, c: CaseResult) { name in c.scores && c.scores[name].candidate > c.scores[name].baseline }

  /** A metric's row counts the cases in which its value fell and rose, and says what every case says if they all say the same. */
  lemma RowSays(cases: seq<CaseResult>, name: string, b: real, c: real)
    requires FromComparisons(cases)
    ensures var row := SummaryOf(cases, name);
            && row.name == name && row.regressions == Count((x: CaseResult) => FallsIn(name, x), cases)
            && row.improvements == Count((x: CaseResult) => RisesIn(name, x), cases)
            && (row.baseline.Some? <==> name in NamesIn(cases)) && (row.candidate.Some? <==> name in NamesIn(cases))
            && (name in NamesIn(cases) && (forall x :: x in cases && name in x.scores ==>
                  x.scores[name].baseline == b && x.scores[name].candidate == c) ==>
                row.baseline == Some(b) && row.candidate == Some(c))
  {
    DeltasOfValues(cases, name);
    hide Values, Sum, Count;
    forall i | 0 <= i < |cases|
      ensures Regresses(name)(cases[i]) <==> FallsIn(name, cases[i])
      ensures Improves(name)(cases[i]) <==> RisesIn(name, cases[i])
    {
      assert cases[i] in cases;
    }
    CountSame(Regresses(name), cases, (x: CaseResult) => FallsIn(name, x), cases);
    CountSame(Improves(name), cases, (x: CaseResult) => RisesIn(name, x), cases);
    if name in NamesIn(cases) && (forall x :: x in cases && name in x.scores ==>
         x.scores[name].baseline == b && x.scores[name].candidate == c) {
      ValuesOfSame(cases, name, Baseline, b);
      ValuesOfSame(cases, name, Candidate, c);
      MeanOfSame(Values(cases, name, Baseline), b);
      MeanOfSame(Values(cases, name, Candidate), c);
    }
  }

  // ---------------------------------------------------------------- the verdict

  datatype Summary = Summary(casesRun: nat, regressions: nat, improvements: nat, untouched: nat, failures: nat, passed: bool)

  predicate Regressed(c: CaseResult) { c.regression }
  predicate Improved(c: CaseResult) { c.improvement }
  predicate HasFailed(c: CaseResult) { c.failed }
  predicate Unchanged(c: CaseResult) { !c.regression && !c.improvement && !c.failed }
  predicate Touched(c: CaseResult) { !Unchanged(c) }

  /** The figures of the run's summary. */
  ghost predicate Summarizes(cases: seq<CaseResult>, s: Summary) {
    && s.casesRun == |cases| && s.regressions == Count(Regressed, cases) && s.improvements == Count(Improved, cases)
    && s.untouched == Count(Unchanged, cases) && s.failures == Count(HasFailed, cases)
    && (s.passed <==> s.regressions == 0 && s.failures == 0)
  }

  /** The summary of `evaluate`. */
  method Summarize(cases: seq<CaseResult>) returns (s: Summary)
    ensures Summarizes(cases, s)
  {
    var regressions: nat, improvements: nat, untouched: nat, failures: nat, passed := 0, 0, 0, 0, true;
    for i := 0 to |cases|
      invariant regressions == Count(Regressed, cases[..i]) && improvements == Count(Improved, cases[..i])
      invariant untouched == Count(Unchanged, cases[..i]) && failures == Count(HasFailed, cases[..i])
      invariant passed <==> regressions == 0 && failures == 0
    {
      assert cases[..i + 1][..i] == cases[..i];
      var c := cases[i];
      regressions := regressions + if c.regression then 1 else 0;
      improvements := improvements + if c.improvement then 1 else 0;
      failures := failures + if c.failed then 1 else 0;
      untouched := untouched + if !c.regression && !c.improvement && !c.failed then 1 else 0;
      passed := passed && !(c.regression || c.failed);
    }
    assert cases[..|cases|] == cases;
    s := Summary(|cases|, regressions, improvements, untouched, failures, passed);
  }

  /** What the two versions scored on a case, and whether one of them failed on it. */
  datatype ScoredCase = ScoredCase(baseline: map<string, real>, candidate: map<string, real>, failed: bool)

  ghost predicate BuiltFrom(c: CaseResult, scored: ScoredCase) {
    Compares(scored.baseline, scored.candidate, Comparison(c.scores, c.regression, c.improvement)) && c.failed == scored.failed
  }

  /** The loop body of `_compare_qa_cases` and `_compare_ask_cases`. */
  method CompareCase(scored: ScoredCase) returns (result: Result<CaseResult, string>)
    ensures result.Ok? <==> scored.baseline.Keys <= scored.candidate.Keys
    ensures result.Ok? ==> BuiltFrom(result.value, scored)
  {
    var compared := CompareScores(scored.baseline, scored.candidate);
    match compared
    case Err(name) => return Err(name);
    case Ok(c) => return Ok(CaseResult(c.scores, c.regression, c.improvement, scored.failed));
  }

  predicate FellIn(scored: ScoredCase) { Fell(scored.baseline, scored.candidate) }
  predicate RoseIn(scored: ScoredCase) { Rose(scored.baseline, scored.candidate) }
  predicate FailedIn(scored: ScoredCase) { scored.failed }

  /** No version failed on the case, and the candidate reaches the baseline in every metric. */
  ghost predicate Holds(scored: ScoredCase) {
    !scored.failed && forall name :: name in scored.baseline ==>
      name in scored.candidate && scored.candidate[name] >= scored.baseline[name]
  }

  /**
   From the scores to the verdict: the summary passes if and only if no version failed and no candidate value fell in any
   case, and its counts are those of the cases in which a value fell, a value rose, and a version failed.
   */
  lemma PassesExactly(scored: seq<ScoredCase>, cases: seq<CaseResult>, s: Summary)
    requires |cases| == |scored| && Summarizes(cases, s)
    requires forall i :: 0 <= i < |cases| ==> BuiltFrom(cases[i], scored[i])
    ensures s.passed <==> forall i :: 0 <= i < |scored| ==> Holds(scored[i])
    ensures s.regressions == Count(FellIn, scored) && s.improvements == Count(RoseIn, scored)
    ensures s.failures == Count(FailedIn, scored)
  {
    hide Count;
    forall i | 0 <= i < |cases| ensures FlagsOf(cases[i], scored[i]) && (Holds(scored[i]) <==> !cases[i].regression && !cases[i].failed) {
      BuiltFlags(cases[i], scored[i]);
    }
    hide BuiltFrom, Fell, Rose, Holds;
    assert forall i :: 0 <= i < |cases| ==> cases[i] in cases;
    CountNone(Regressed, cases);
    CountNone(HasFailed, cases);
    CountSame(Regressed, cases, FellIn, scored);
    CountSame(Improved, cases, RoseIn, scored);
    CountSame(HasFailed, cases, FailedIn, scored);
  }

  /** The flags of a case are about its scores. */
  ghost predicate FlagsOf(c: CaseResult, scored: ScoredCase) {
    && (c.regression <==> Fell(scored.baseline, scored.candidate)) && (c.improvement <==> Rose(scored.baseline, scored.candidate))
    && c.failed == scored.failed
  }

  lemma BuiltFlags(c: CaseResult, scored: ScoredCase)
    requires BuiltFrom(c, scored)
    ensures FlagsOf(c, scored) && (Holds(scored) <==> !c.regression && !c.failed)
  {
    assert scored.baseline.Keys <= scored.candidate.Keys;
    assert forall name :: name in scored.baseline ==> name in scored.candidate;
  }

  /** Unchanged cases and cases with some finding partition the run. */
  lemma {:induction false} FindingsPartition(cases: seq<CaseResult>)
    ensures Count(Unchanged, cases) + Count(Touched, cases) == |cases|
    ensures Count(Touched, cases) <= Count(Regressed, cases) + Count(Improved, cases) + Count(HasFailed, cases)
  {
    if cases != [] {
      FindingsPartition(cases[..|cases| - 1]);
    }
  }

  // ---------------------------------------------------------------- a run with the versions swapped

  /** The case as the run with the versions swapped reports it. */
  function SwapCase(c: CaseResult): CaseResult {
    CaseResult(SwapScores(c.scores), c.improvement, c.regression, c.failed)
  }

  function SwapCases(cases: seq<CaseResult>): seq<CaseResult> {
    seq(|cases|, i requires 0 <= i < |cases| => SwapCase(cases[i]))
  }

  lemma SwapLast(cases: seq<CaseResult>)
    requires cases != []
    ensures SwapCases(cases)[..|cases| - 1] == SwapCases(cases[..|cases| - 1])
    ensures SwapCases(cases)[|cases| - 1] == SwapCase(cases[|cases| - 1])
  {
    hide SwapCase;
  }

  lemma {:induction false} SwappedCounts(cases: seq<CaseResult>)
    ensures var swapped := SwapCases(cases);
            && Count(Regressed, swapped) == Count(Improved, cases) && Count(Improved, swapped) == Count(Regressed, cases)
            && Count(Unchanged, swapped) == Count(Unchanged, cases) && Count(HasFailed, swapped) == Count(HasFailed, cases)
  {
    if cases != [] {
      SwapLast(cases);
      SwappedCounts(cases[..|cases| - 1]);
      hide SwapScores, SwapCases;
    }
  }

  /** The swapped run's summary has regressions and improvements swapped and all other figures the same. */
  lemma SwappedSummary(cases: seq<CaseResult>, s: Summary, t: Summary)
    requires Summarizes(cases, s) && Summarizes(SwapCases(cases), t)
    ensures t == Summary(s.casesRun, s.improvements, s.regressions, s.untouched, s.failures,
                         s.improvements == 0 && s.failures == 0)
  {
    SwappedCounts(cases);
    hide Count;
  }

  lemma {:induction false} SwappedValues(cases: seq<CaseResult>, name: string)
    ensures Values(SwapCases(cases), name, Baseline) == Values(cases, name, Candidate)
    ensures Values(SwapCases(cases), name, Candidate) == Values(cases, name, Baseline)
    ensures Count(Regresses(name), SwapCases(cases)) == Count(Improves(name), cases)
    ensures Count(Improves(name), SwapCases(cases)) == Count(Regresses(name), cases)
  {
    if cases != [] {
      SwapLast(cases);
      SwappedValues(cases[..|cases| - 1], name);
      hide SwapCases;
    }
  }

  /** And every metric's row has its means and counts swapped and its delta negated. */
  lemma SwappedRow(cases: seq<CaseResult>, name: string)
    ensures var row := SummaryOf(cases, name);
            SummaryOf(SwapCases(cases), name) ==
              MetricSummary(name, row.candidate, row.baseline,
                            if row.delta.Some? then Some(-row.delta.value) else None, row.improvements, row.regressions)
  {
    SwappedValues(cases, name);
    hide Mean, Values, Count;
  }
}
