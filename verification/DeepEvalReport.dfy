/** Metric results and the report's groupings (packages/evals/run_deepeval.py, deepeval_report.py). */
module DeepEvalReport {
  import opened Text
  import opened Counting

  datatype MetricResult = MetricResult(
    caseId: string, category: string, metricName: string, metricType: string,
    score: Option<real>, threshold: Option<real>, passed: Option<bool>, skipped: bool,
    skipReason: Option<string>, error: Option<string>)

  datatype PreparedCase = PreparedCase(caseId: string, category: string)

  // ---------------------------------------------------------------- building results

  /** `_build_metric_result` */
  method BuildMetricResult(c: PreparedCase, metricName: string, metricType: string, score: Option<real>,
                           threshold: Option<real>,
                           givenVerdict: Option<bool>, skipped: bool, skipReason: Option<string>, error: Option<string>)
    returns (result: MetricResult)
    ensures result == MetricResult(c.caseId, c.category, metricName, metricType, score, threshold,
                                   VerdictOf(score, threshold, givenVerdict, skipped, error), skipped, skipReason, error)
  {
    var passed := givenVerdict;
    if passed == None && !skipped && error == None && score.Some? && threshold.Some? {
      passed := Some(score.value >= threshold.value);
    }
    if skipped {
      passed := None;
    } else if error.Some? && passed == None {
      passed := Some(false);
    }
    return MetricResult(c.caseId, c.category, metricName, metricType, score, threshold, passed, skipped, skipReason, error);
  }

  /** A given verdict stands, an error without one fails, and a score is held against its threshold. */
  function VerdictOf(score: Option<real>, threshold: Option<real>, givenVerdict: Option<bool>, skipped: bool,
                     error: Option<string>): Option<bool> {
    if skipped then None
    else if givenVerdict.Some? then givenVerdict
    else if error.Some? then Some(false)
    else if score.Some? && threshold.Some? then Some(score.value >= threshold.value)
    else None
  }

  /** What the call sites supply: a reason to skip, an error, a judge's verdict, or a score with its threshold. */
  datatype Outcome =
    | Skip(reason: string)
    | JudgeError(message: string)
    | Judged(score: Option<real>, threshold: Option<real>, success: bool, error: Option<string>)
    | Scored(value: real, minimum: real)

  function ResultOf(c: PreparedCase, metricName: string, metricType: string, outcome: Outcome): MetricResult {
    var threshold := match outcome case Scored(_, t) => Some(t) case Judged(_, t, _, _) => t case _ => None;
    var score := match outcome case Scored(s, _) => Some(s) case Judged(s, _, _, _) => s case _ => None;
    var given := if outcome.Judged? then Some(outcome.success) else None;
    var error := match outcome case JudgeError(m) => Some(m) case Judged(_, _, _, e) => e case _ => None;
    MetricResult(c.caseId, c.category, metricName, metricType, score, threshold,
                 VerdictOf(score, threshold, given, outcome.Skip?, error), outcome.Skip?,
                 if outcome.Skip? then Some(outcome.reason) else None, error)
  }

  /** A result has a verdict exactly when it is not skipped. */
  predicate HasVerdict(r: MetricResult) { r.passed.Some? <==> !r.skipped }

  /** Without a verdict or an error, an unskipped result needs both a score and a threshold; every call site gives them. */
  lemma CallSitesGiveVerdicts(c: PreparedCase, metricName: string, metricType: string, outcome: Outcome)
    ensures HasVerdict(ResultOf(c, metricName, metricType, outcome))
    ensures var r := ResultOf(c, metricName, metricType, outcome);
            r.caseId == c.caseId && r.category == c.category && r.metricName == metricName && r.metricType == metricType
    ensures outcome.Scored? ==> ResultOf(c, metricName, metricType, outcome).passed == Some(outcome.value >= outcome.minimum)
    ensures outcome.JudgeError? ==> ResultOf(c, metricName, metricType, outcome).passed == Some(false)
    ensures outcome.Judged? ==> ResultOf(c, metricName, metricType, outcome).passed == Some(outcome.success)
  {
  }

  lemma VerdictlessExactly(score: Option<real>, threshold: Option<real>, given: Option<bool>, skipped: bool,
                           error: Option<string>)
    ensures !skipped && VerdictOf(score, threshold, given, skipped, error) == None <==>
              !skipped && given == None && error == None && (score == None || threshold == None)
  {
  }

  // ---------------------------------------------------------------- counting results

  predicate Passed(r: MetricResult) { r.passed == Some(true) }
  predicate Failed(r: MetricResult) { !r.skipped && r.passed == Some(false) }
  predicate Skipped(r: MetricResult) { r.skipped }
  predicate Verdictless(r: MetricResult) { !r.skipped && r.passed == None }
  predicate SkippedYetPassed(r: MetricResult) { r.skipped && r.passed == Some(true) }
  predicate PassedUnskipped(r: MetricResult) { !r.skipped && r.passed == Some(true) }
  predicate NotPassed(r: MetricResult) { !r.skipped && r.passed != Some(true) }

  function MetricKey(r: MetricResult): string { r.metricName }
  function CategoryKey(r: MetricResult): string { r.category }
  function CaseKey(r: MetricResult): string { r.caseId }

  lemma {:induction false} CountsSplit(results: seq<MetricResult>)
    ensures Count(Passed, results) + Count(Failed, results) + Count(Skipped, results) + Count(Verdictless, results)
         == |results| + Count(SkippedYetPassed, results)
    ensures Count(PassedUnskipped, results) + Count(NotPassed, results) + Count(Skipped, results) == |results|
  {
    if results == [] {
    } else {
      var before, last := results[..|results| - 1], results[|results| - 1];
      CountsSplit(before);
      OneMore(Passed, results);
      OneMore(Failed, results);
      OneMore(Skipped, results);
      OneMore(Verdictless, results);
      OneMore(SkippedYetPassed, results);
      OneMore(PassedUnskipped, results);
      OneMore(NotPassed, results);
      hide Count;
      if last.passed.Some? && last.passed.value {
        assert last.passed == Some(true);
      } else if last.passed.Some? {
        assert last.passed == Some(false);
      }
    }
  }

  lemma OneMore(p: MetricResult -> bool, results: seq<MetricResult>)
    requires results != []
    ensures Count(p, results) == Count(p, results[..|results| - 1]) + if p(results[|results| - 1]) then 1 else 0
  {
  }

  // ---------------------------------------------------------------- aggregate scores

  datatype AggregateRow = AggregateRow(
    metricName: string, metricType: string, average: Option<real>, passed: nat, failed: nat, skipped: nat)

  function Scores(results: seq<MetricResult>): seq<real> {
    if results == [] then []
    else
      var last := results[|results| - 1];
      Scores(results[..|results| - 1]) + (if last.score.Some? then [last.score.value] else [])
  }

  function RowOf(results: seq<MetricResult>, name: string): AggregateRow {
    var own := Group(results, MetricKey, name);
    AggregateRow(name, if own == [] then "" else own[0].metricType, Mean(Scores(own)),
                 Count(Passed, own), Count(Failed, own), Count(Skipped, own))
  }

  /** One group's figures, counted in one pass. */
  method SummarizeGroup(name: string, own: seq<MetricResult>) returns (row: AggregateRow)
    requires own != []
    ensures row == AggregateRow(name, own[0].metricType, Mean(Scores(own)),
                                Count(Passed, own), Count(Failed, own), Count(Skipped, own))
  {
    hide Sum;
    var scores: seq<real>, passed: nat, failed: nat, skipped: nat := [], 0, 0, 0;
    for i := 0 to |own|
      invariant scores == Scores(own[..i]) && passed == Count(Passed, own[..i])
      invariant failed == Count(Failed, own[..i]) && skipped == Count(Skipped, own[..i])
    {
      assert own[..i + 1][..i] == own[..i];
      var result := own[i];
      if result.score.Some? {
        scores := scores + [result.score.value];
      }
      passed := passed + if result.passed == Some(true) then 1 else 0;
      failed := failed + if !result.skipped && result.passed == Some(false) then 1 else 0;
      skipped := skipped + if result.skipped then 1 else 0;
    }
    assert own[..|own|] == own;
    row := AggregateRow(name, own[0].metricType, Mean(scores), passed, failed, skipped);
  }

  function PassedNamed(name: string): (MetricResult -> bool) {
    (r: MetricResult) => r.metricName == name && r.passed == Some(true)
  }
  function FailedNamed(name: string): (MetricResult -> bool) {
    (r: MetricResult) => r.metricName == name && !r.skipped && r.passed == Some(false)
  }
  function SkippedNamed(name: string): (MetricResult -> bool) { (r: MetricResult) => r.metricName == name && r.skipped }
  function ScoredNamed(name: string): (MetricResult -> bool) { (r: MetricResult) => r.metricName == name && r.score.Some? }

  /** What a row says, counted over all results: it is about the results of its metric and nothing else. */
  ghost predicate Reports(row: AggregateRow, results: seq<MetricResult>) {
    && row.passed == Count(PassedNamed(row.metricName), results) && row.failed == Count(FailedNamed(row.metricName), results)
    && row.skipped == Count(SkippedNamed(row.metricName), results) && Averages(row.average, results, row.metricName)
  }

  /** The mean of the scores of a metric. */
  ghost predicate Averages(average: Option<real>, results: seq<MetricResult>, name: string) {
    && (average.Some? <==> exists r :: r in results && r.metricName == name && r.score.Some?)
    && (average.Some? ==> average.value * Count(ScoredNamed(name), results) as real == ScoreSum(results, name))
  }

  /** The scores of a metric, added up. */
  function ScoreSum(results: seq<MetricResult>, name: string): real {
    if results == [] then 0.0
    else
      var last := results[|results| - 1];
      ScoreSum(results[..|results| - 1], name)
      + if last.metricName == name && last.score.Some? then last.score.value else 0.0
  }

  predicate HasScore(r: MetricResult) { r.score.Some? }

  lemma ScoresSnoc(before: seq<MetricResult>, last: MetricResult)
    ensures Scores(before + [last]) == Scores(before) + if last.score.Some? then [last.score.value] else []
  {
    assert (before + [last])[..|before|] == before;
  }

  lemma SumAppended(values: seq<real>, more: seq<real>)
    requires |more| <= 1
    ensures Sum(values + more) == Sum(values) + if more == [] then 0.0 else more[0]
  {
    if more == [] {
      assert values + more == values;
    } else {
      assert more == [more[0]];
      SumSnoc(values, more[0]);
    }
  }

  lemma {:induction false} ScoresAdd(results: seq<MetricResult>, name: string)
    ensures var scores := Scores(Group(results, MetricKey, name));
            Sum(scores) == ScoreSum(results, name) && |scores| == Count(HasScore, Group(results, MetricKey, name))
  {
    if results != [] {
      var before, last := results[..|results| - 1], results[|results| - 1];
      ScoresAdd(before, name);
      assert results == before + [last];
      GroupSnoc(before, last, MetricKey, name);
      var own := Group(before, MetricKey, name);
      hide Group, Sum, Count, Scores;
      if last.metricName == name {
        ScoresSnoc(own, last);
        CountSnoc(HasScore, own, last);
        SumAppended(Scores(own), if last.score.Some? then [last.score.value] else []);
      } else {
        assert own + [] == own;
      }
    }
  }

  lemma RowAverage(results: seq<MetricResult>, name: string)
    ensures Averages(Mean(Scores(Group(results, MetricKey, name))), results, name)
  {
    hide Group, Count, Scores, ScoreSum, Sum, Mean;
    CountInGroup(HasScore, ScoredNamed(name), results, MetricKey, name);
    CountNone(ScoredNamed(name), results);
    ScoresAdd(results, name);
    MeanExactly(Scores(Group(results, MetricKey, name)));
  }

  lemma RowReports(results: seq<MetricResult>, name: string)
    ensures RowOf(results, name).metricName == name && Reports(RowOf(results, name), results)
  {
    hide Group, Count, Scores, Averages, Mean;
    CountInGroup(Passed, PassedNamed(name), results, MetricKey, name);
    CountInGroup(Failed, FailedNamed(name), results, MetricKey, name);
    CountInGroup(Skipped, SkippedNamed(name), results, MetricKey, name);
    RowAverage(results, name);
  }

  predicate Occurs(results: seq<MetricResult>, name: string) { exists r :: r in results && r.metricName == name }

  function MetricNames(results: seq<MetricResult>): seq<string> { Sorted(Keys(results, MetricKey)) }

  /** `_aggregate_scores`: one row per metric, by name. */
  method AggregateScores(results: seq<MetricResult>) returns (rows: seq<AggregateRow>)
    ensures |rows| == |MetricNames(results)|
    ensures forall i :: 0 <= i < |rows| ==> rows[i] == RowOf(results, MetricNames(results)[i]) && Reports(rows[i], results)
    ensures forall i, j :: 0 <= i < j < |rows| ==> Less(rows[i].metricName, rows[j].metricName)
    ensures forall i :: 0 <= i < |rows| ==> Occurs(results, rows[i].metricName)
    ensures forall r :: r in results ==> exists i :: 0 <= i < |rows| && rows[i].metricName == r.metricName
  {
    var grouped, order := GroupBy(results, MetricKey);
    SortedMeaning(order);
    KeysMeaning(results, MetricKey);
    hide Keys, Group, Sorted, Count, Mean, Scores, Less, Reports;
    var names := Sorted(order);
    rows := [];
    for i := 0 to |names|
      invariant |rows| == i && forall k :: 0 <= k < i ==> rows[k] == RowOf(results, names[k]) && Reports(rows[k], results)
    {
      RowReports(results, names[i]);
      assert names[i] in order && Lookup(grouped, names[i]) == Group(results, MetricKey, names[i]);
      GroupIsNonEmpty(results, MetricKey, names[i]);
      var row := SummarizeGroup(names[i], grouped[names[i]]);
      rows := rows + [row];
    }
    forall i | 0 <= i < |rows| ensures Occurs(results, rows[i].metricName) {
      assert names[i] in names && names[i] in order;
      var r :| r in results && MetricKey(r) == names[i];
      NameOfRow(results, names[i]);
      assert r.metricName == rows[i].metricName;
    }
    forall r | r in results ensures exists i :: 0 <= i < |rows| && rows[i].metricName == r.metricName {
      assert r.metricName in names;
      var i :| 0 <= i < |names| && names[i] == r.metricName;
      assert rows[i].metricName == r.metricName;
    }
  }

  lemma NameOfRow(results: seq<MetricResult>, name: string)
    ensures RowOf(results, name).metricName == name
  {
    hide Group, Count, Scores, Mean;
  }

  lemma GroupIsNonEmpty(results: seq<MetricResult>, key: MetricResult -> string, name: string)
    requires name in Keys(results, key)
    ensures Group(results, key, name) != []
  {
    hide Keys, Group;
    KeysMeaning(results, key);
    GroupMeaning(results, key, name);
    var r :| r in results && key(r) == name;
    assert r in Group(results, key, name);
  }

  // ---------------------------------------------------------------- categories

  datatype CategoryCounts = CategoryCounts(passed: nat, failed: nat, skipped: nat)

  const ZERO := CategoryCounts(0, 0, 0)

  function CountsFor(results: seq<MetricResult>, category: string): CategoryCounts {
    var own := Group(results, CategoryKey, category);
    CategoryCounts(Count(PassedUnskipped, own), Count(NotPassed, own), Count(Skipped, own))
  }

  function AddResult(counts: CategoryCounts, r: MetricResult): CategoryCounts {
    if r.skipped then counts.(skipped := counts.skipped + 1)
    else if r.passed == Some(true) then counts.(passed := counts.passed + 1)
    else counts.(failed := counts.failed + 1)
  }

  lemma CountsForSnoc(before: seq<MetricResult>, last: MetricResult, category: string)
    ensures CountsFor(before + [last], category)
         == if last.category == category then AddResult(CountsFor(before, category), last) else CountsFor(before, category)
  {
    GroupSnoc(before, last, CategoryKey, category);
    hide Group, Count;
    var own := Group(before, CategoryKey, category);
    assert own + [] == own;
    CountSnoc(PassedUnskipped, own, last);
    CountSnoc(NotPassed, own, last);
    CountSnoc(Skipped, own, last);
  }

  lemma NothingCounted(category: string)
    ensures CountsFor([], category) == ZERO
  {
  }

  /** A category's counters, counted over all results: every result of the category in exactly one of them. */
  lemma CategoryReports(results: seq<MetricResult>, category: string)
    ensures CountsFor(results, category) == CategoryCounts(
              Count((r: MetricResult) => r.category == category && !r.skipped && r.passed == Some(true), results),
              Count((r: MetricResult) => r.category == category && !r.skipped && r.passed != Some(true), results),
              Count((r: MetricResult) => r.category == category && r.skipped, results))
  {
    hide Group, Count;
    CountInGroup(PassedUnskipped, (r: MetricResult) => r.category == category && !r.skipped && r.passed == Some(true), results,
                 CategoryKey, category);
    CountInGroup(NotPassed, (r: MetricResult) => r.category == category && !r.skipped && r.passed != Some(true), results,
                 CategoryKey, category);
    CountInGroup(Skipped, (r: MetricResult) => r.category == category && r.skipped, results, CategoryKey, category);
  }

  function CategoryNames(results: seq<MetricResult>): seq<string> { Sorted(Keys(results, CategoryKey)) }

  /** `_category_summary`: counters per category, by name; an unskipped result without a verdict counts as failed. */
  method CategorySummary(results: seq<MetricResult>) returns (rows: seq<(string, CategoryCounts)>)
    ensures |rows| == |CategoryNames(results)|
    ensures forall i :: 0 <= i < |rows| ==> rows[i] == (CategoryNames(results)[i], CountsFor(results, CategoryNames(results)[i]))
  {
    hide Group, Count, Sorted, CountsFor, AddResult;
    var grouped: map<string, CategoryCounts>, order: seq<string> := map[], [];
    forall category ensures CountsFor([], category) == ZERO { NothingCounted(category); }
    for i := 0 to |results|
      invariant order == Keys(results[..i], CategoryKey) && forall k :: k in grouped <==> k in order
      invariant forall k :: CountsFor(results[..i], k) == if k in grouped then grouped[k] else ZERO
    {
      assert results[..i + 1][..i] == results[..i] && results[..i + 1] == results[..i] + [results[i]];
      var category := results[i].category;
      forall k
        ensures CountsFor(results[..i + 1], k)
             == if category == k then AddResult(CountsFor(results[..i], k), results[i]) else CountsFor(results[..i], k)
      {
        CountsForSnoc(results[..i], results[i], k);
      }
      if category !in grouped {
        order := order + [category];
      }
      grouped := grouped[category := AddResult(if category in grouped then grouped[category] else ZERO, results[i])];
    }
    assert results[..|results|] == results;
    SortedMeaning(order);
    var names := Sorted(order);
    rows := [];
    for i := 0 to |names|
      invariant |rows| == i && forall k :: 0 <= k < i ==> rows[k] == (names[k], CountsFor(results, names[k]))
    {
      assert names[i] in order;
      rows := rows + [(names[i], grouped[names[i]])];
    }
  }

  // ---------------------------------------------------------------- failing cases

  /** The unskipped failures, in order. */
  function FailuresOf(results: seq<MetricResult>): seq<MetricResult> {
    if results == [] then []
    else FailuresOf(results[..|results| - 1]) + if Failed(results[|results| - 1]) then [results[|results| - 1]] else []
  }

  function Reason(r: MetricResult): string {
    var detail :=
      if r.error.Some? && r.error.value != "" then r.error.value
      else if r.skipReason.Some? && r.skipReason.value != "" then r.skipReason.value
      else "failed";
    r.metricName + ": " + detail
  }

  function ReasonsOf(results: seq<MetricResult>): seq<string> {
    seq(|results|, i requires 0 <= i < |results| => Reason(results[i]))
  }

  /** A reason names the metric and says the error, or else the skip reason, or else that it failed. */
  lemma ReasonSays(r: MetricResult)
    ensures r.error.Some? && r.error.value != "" ==> Reason(r) == r.metricName + ": " + r.error.value
    ensures r.error in {None, Some("")} && r.skipReason.Some? && r.skipReason.value != ""
        ==> Reason(r) == r.metricName + ": " + r.skipReason.value
    ensures r.error in {None, Some("")} && r.skipReason in {None, Some("")} ==> Reason(r) == r.metricName + ": failed"
  {
  }

  lemma {:induction false} FailuresMeaning(results: seq<MetricResult>)
    ensures forall r :: r in FailuresOf(results) <==> r in results && !r.skipped && r.passed == Some(false)
  {
    if results != [] {
      var n := |results| - 1;
      FailuresMeaning(results[..n]);
      assert results == results[..n] + [results[n]];
    }
  }

  /** The report lists a reason under a case exactly if an unskipped result of the case failed for that reason. */
  lemma ListedExactly(results: seq<MetricResult>, id: string, reason: string)
    ensures reason in ReasonsOf(Group(FailuresOf(results), CaseKey, id)) <==>
              exists r :: r in results && r.caseId == id && !r.skipped && r.passed == Some(false) && Reason(r) == reason
    ensures id in FailingCaseIds(results) <==> exists r :: r in results && r.caseId == id && !r.skipped && r.passed == Some(false)
    ensures Increasing(FailingCaseIds(results))
  {
    FailuresMeaning(results);
    var failures := FailuresOf(results);
    GroupMeaning(failures, CaseKey, id);
    KeysMeaning(failures, CaseKey);
    SortedMeaning(Keys(failures, CaseKey));
    hide Group, Keys, Sorted, Reason, Increasing;
    var own := Group(failures, CaseKey, id);
    if reason in ReasonsOf(own) {
      var i :| 0 <= i < |own| && ReasonsOf(own)[i] == reason;
      assert own[i] in own;
    }
    if r :| r in results && r.caseId == id && !r.skipped && r.passed == Some(false) && Reason(r) == reason {
      assert r in own;
      var i :| 0 <= i < |own| && own[i] == r;
      assert ReasonsOf(own)[i] == reason;
    }
  }

  function FailingCaseIds(results: seq<MetricResult>): seq<string> { Sorted(Keys(FailuresOf(results), CaseKey)) }

  /** `_failing_cases`: the reasons of each case with a failure, by case id. */
  method FailingCases(results: seq<MetricResult>) returns (rows: seq<(string, seq<string>)>)
    ensures |rows| == |FailingCaseIds(results)|
    ensures forall i :: 0 <= i < |rows| ==>
              rows[i] == (FailingCaseIds(results)[i], ReasonsOf(Group(FailuresOf(results), CaseKey, FailingCaseIds(results)[i])))
  {
    var failures: seq<MetricResult> := [];
    for i := 0 to |results|
      invariant failures == FailuresOf(results[..i])
    {
      assert results[..i + 1][..i] == results[..i];
      if results[i].skipped || results[i].passed != Some(false) {
        continue;
      }
      failures := failures + [results[i]];
    }
    assert results[..|results|] == results;
    var grouped, order := GroupBy(failures, CaseKey);
    SortedMeaning(order);
    hide Keys, Group, Sorted, Reason, FailuresOf;
    var ids := Sorted(order);
    rows := [];
    for i := 0 to |ids|
      invariant |rows| == i
      invariant forall k :: 0 <= k < i ==> rows[k] == (ids[k], ReasonsOf(Group(failures, CaseKey, ids[k])))
    {
      assert ids[i] in order && Lookup(grouped, ids[i]) == Group(failures, CaseKey, ids[i]);
      rows := rows + [(ids[i], ReasonsOf(grouped[ids[i]]))];
    }
  }

  // ---------------------------------------------------------------- double counting

  lemma {:induction false} FailuresCounted(results: seq<MetricResult>)
    ensures |FailuresOf(results)| == Count(Failed, results)
  {
    if results != [] {
      FailuresCounted(results[..|results| - 1]);
    }
  }

  function PassedIn(row: AggregateRow): nat { row.passed }
  function FailedIn(row: AggregateRow): nat { row.failed }
  function SkippedIn(row: AggregateRow): nat { row.skipped }
  function CategoryTotal(row: (string, CategoryCounts)): nat { row.1.passed + row.1.failed + row.1.skipped }
  function ReasonCount(row: (string, seq<string>)): nat { |row.1| }

  /** A column of rows that are made from a list of names adds up like the counts behind it. */
  lemma {:induction false} ColumnTotal<R>(column: R -> nat, rows: seq<R>, counts: string -> nat, names: seq<string>)
    requires |rows| == |names| && forall i :: 0 <= i < |rows| ==> column(rows[i]) == counts(names[i])
    ensures Total(column, rows) == Total(counts, names)
  {
    if rows != [] {
      ColumnTotal(column, rows[..|rows| - 1], counts, names[..|names| - 1]);
    }
  }

  lemma AggregateColumn(p: MetricResult -> bool, column: AggregateRow -> nat, results: seq<MetricResult>,
                        rows: seq<AggregateRow>)
    requires |rows| == |MetricNames(results)|
    requires forall i :: 0 <= i < |rows| ==> column(rows[i]) == Count(p, Group(results, MetricKey, MetricNames(results)[i]))
    ensures Total(column, rows) == Count(p, results)
  {
    hide Total, Sorted, Keys, Group, Count;
    KeysMeaning(results, MetricKey);
    SortedMeaning(Keys(results, MetricKey));
    ColumnTotal(column, rows, GroupCounts(p, results, MetricKey), MetricNames(results));
    GroupsAddUp(p, results, MetricKey, MetricNames(results));
  }

  /** The totals over the metric rows, for any results. */
  lemma AggregateTotals(results: seq<MetricResult>, rows: seq<AggregateRow>)
    requires |rows| == |MetricNames(results)| && forall i :: 0 <= i < |rows| ==> rows[i] == RowOf(results, MetricNames(results)[i])
    ensures Total(PassedIn, rows) + Total(FailedIn, rows) + Total(SkippedIn, rows) + Count(Verdictless, results)
         == |results| + Count(SkippedYetPassed, results)
  {
    hide Total, MetricNames, Group, Count, Mean, Scores;
    CountsSplit(results);
    AggregateColumn(Passed, PassedIn, results, rows);
    AggregateColumn(Failed, FailedIn, results, rows);
    AggregateColumn(Skipped, SkippedIn, results, rows);
  }

  /** The totals over the category rows count every result once, for any results. */
  lemma CategoryTotals(results: seq<MetricResult>, rows: seq<(string, CategoryCounts)>)
    requires |rows| == |CategoryNames(results)|
    requires forall i :: 0 <= i < |rows| ==> rows[i] == (CategoryNames(results)[i], CountsFor(results, CategoryNames(results)[i]))
    ensures Total(CategoryTotal, rows) == |results|
  {
    var any := (r: MetricResult) => true;
    forall i | 0 <= i < |rows| ensures CategoryTotal(rows[i]) == GroupCounts(any, results, CategoryKey)(CategoryNames(results)[i]) {
      var own := Group(results, CategoryKey, CategoryNames(results)[i]);
      CountsSplit(own);
      CountAll(any, own);
    }
    hide Total, Sorted, Keys, Group, Count, CountsFor;
    KeysMeaning(results, CategoryKey);
    SortedMeaning(Keys(results, CategoryKey));
    ColumnTotal(CategoryTotal, rows, GroupCounts(any, results, CategoryKey), CategoryNames(results));
    GroupsAddUp(any, results, CategoryKey, CategoryNames(results));
    CountAll(any, results);
  }

  /** The reasons listed under the failing cases number exactly the failures. */
  lemma ReasonTotals(results: seq<MetricResult>, rows: seq<(string, seq<string>)>)
    requires |rows| == |FailingCaseIds(results)|
    requires forall i :: 0 <= i < |rows| ==>
               rows[i] == (FailingCaseIds(results)[i], ReasonsOf(Group(FailuresOf(results), CaseKey, FailingCaseIds(results)[i])))
    ensures Total(ReasonCount, rows) == Count(Failed, results)
  {
    var any := (r: MetricResult) => true;
    var failures := FailuresOf(results);
    FailuresCounted(results);
    hide FailuresOf, Total, Sorted, Keys, Group, Count, Reason;
    forall i | 0 <= i < |rows| ensures ReasonCount(rows[i]) == GroupCounts(any, failures, CaseKey)(FailingCaseIds(results)[i]) {
      CountAll(any, Group(failures, CaseKey, FailingCaseIds(results)[i]));
    }
    KeysMeaning(failures, CaseKey);
    SortedMeaning(Keys(failures, CaseKey));
    ColumnTotal(ReasonCount, rows, GroupCounts(any, failures, CaseKey), FailingCaseIds(results));
    GroupsAddUp(any, failures, CaseKey, FailingCaseIds(results));
    CountAll(any, failures);
  }

  lemma {:induction false} VerdictsLeaveNoGap(results: seq<MetricResult>)
    requires forall r :: r in results ==> HasVerdict(r)
    ensures Count(Verdictless, results) == 0 && Count(SkippedYetPassed, results) == 0
  {
    CountNone(Verdictless, results);
    CountNone(SkippedYetPassed, results);
  }

  /**
   The report counts the same results twice, by metric and by category, and its failing cases a
   third time. When every result has a verdict, as the call sites ensure, the three agree.
   */
  lemma ThreeWaysAgree(results: seq<MetricResult>, metrics: seq<AggregateRow>,
                       categories: seq<(string, CategoryCounts)>,
                       failing: seq<(string, seq<string>)>)
    requires forall r :: r in results ==> HasVerdict(r)
    requires |metrics| == |MetricNames(results)|
    requires forall i :: 0 <= i < |metrics| ==> metrics[i] == RowOf(results, MetricNames(results)[i])
    requires |categories| == |CategoryNames(results)|
    requires forall i :: 0 <= i < |categories| ==>
               categories[i] == (CategoryNames(results)[i], CountsFor(results, CategoryNames(results)[i]))
    requires |failing| == |FailingCaseIds(results)|
    requires forall i :: 0 <= i < |failing| ==>
               failing[i] == (FailingCaseIds(results)[i], ReasonsOf(Group(FailuresOf(results), CaseKey, FailingCaseIds(results)[i])))
    ensures Total(PassedIn, metrics) + Total(FailedIn, metrics) + Total(SkippedIn, metrics) == |results|
    ensures Total(CategoryTotal, categories) == |results|
    ensures Total(ReasonCount, failing) == Total(FailedIn, metrics) == Count(Failed, results)
  {
    VerdictsLeaveNoGap(results);
    AggregateTotals(results, metrics);
    CategoryTotals(results, categories);
    ReasonTotals(results, failing);
    hide Total, MetricNames, Group, Count, Mean, Scores, HasVerdict, CountsFor, CategoryNames, FailingCaseIds,
      ReasonsOf;
    AggregateColumn(Failed, FailedIn, results, metrics);
  }
}
