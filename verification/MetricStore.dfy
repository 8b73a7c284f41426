/**
 Stored experiment metrics: the `name:variant` storage encoding (packages/ingestion/load_experiment.py),
 the nested-dict index of the analysis agent and the linear scan of the business-impact agent.
 */
module MetricStore {
  import opened Text

  /** A metric as read from `metrics.csv`; numeric metadata fields are already parsed. */
  datatype Metric = Metric(
    metricName: string, variant: string, value: real, liftVsControl: Option<real>, pValue: Option<real>)

  // ---------------------------------------------------------------- storage names

  /** `MetricInput.storage_name` */
  function StorageName(metricName: string, variant: string): string { metricName + ":" + variant }

  function ColonAt(s: string): (i: nat)
    ensures i <= |s| && (i < |s| ==> s[i] == ':')
    ensures forall k :: 0 <= k < i ==> s[k] != ':'
  {
    if s == "" || s[0] == ':' then 0 else 1 + ColonAt(s[1..])
  }

  /** `_split_metric_storage_name`: `storage_name.partition(":")` without the separator. */
  function SplitStorageName(storageName: string): (string, string) {
    var i := ColonAt(storageName);
    if i == |storageName| then (storageName, "") else (storageName[..i], storageName[i + 1..])
  }

  predicate ColonFree(s: string) { forall i :: 0 <= i < |s| ==> s[i] != ':' }

  /** The encoding is read back exactly when the metric name has no colon; the variant may have one. */
  lemma StorageNameRoundTrip(metricName: string, variant: string)
    ensures SplitStorageName(StorageName(metricName, variant)) == (metricName, variant) <==> ColonFree(metricName)
  {
    hide ColonAt;
    var s := StorageName(metricName, variant);
    var i := ColonAt(s);
    assert s[|metricName|] == ':' && i <= |metricName|;
    assert s[..|metricName|] == metricName && s[|metricName| + 1..] == variant;
    if i < |metricName| {
      assert metricName[i] == s[i] == ':';
      assert |s[..i]| != |metricName|;
    }
  }

  /** A colon in the name moves part of it into the variant. */
  lemma ColonMovesTheBoundary()
    ensures SplitStorageName(StorageName("a:b", "c")) == ("a", "b:c")
    ensures StorageName("a:b", "c") == StorageName("a", "b:c")
  {
    StorageNameRoundTrip("a", "b:c");
    assert StorageName("a:b", "c") == StorageName("a", "b:c");
  }

  // ---------------------------------------------------------------- lookups

  /** The last metric of the list with this name and variant. */
  function LastMatch(metrics: seq<Metric>, metricName: string, variant: string): Option<Metric> {
    if metrics == [] then None
    else
      var last := metrics[|metrics| - 1];
      if last.metricName == metricName && last.variant == variant then Some(last)
      else LastMatch(metrics[..|metrics| - 1], metricName, variant)
  }

  /** The metric names in order of first occurrence: the key order of the index. */
  function NamesOf(metrics: seq<Metric>): seq<string> {
    if metrics == [] then []
    else
      var before := NamesOf(metrics[..|metrics| - 1]);
      var name := metrics[|metrics| - 1].metricName;
      if name in before then before else before + [name]
  }

  /** More metrics only append names, so the names stay in order of first occurrence. */
  lemma {:induction false} NamesGrow(a: seq<Metric>, b: seq<Metric>)
    ensures NamesOf(a) <= NamesOf(a + b)
  {
    if b == [] {
      assert a + b == a;
    } else {
      var n := |b| - 1;
      assert (a + b)[..|a| + n] == a + b[..n];
      NamesGrow(a, b[..n]);
    }
  }

  /** What the nested-dict index holds: the key order, and for each name its variants. */
  ghost predicate Indexes(metrics: seq<Metric>, order: seq<string>, grouped: map<string, map<string, Metric>>) {
    && order == NamesOf(metrics)
    && (forall name :: name in grouped <==> name in order)
    && (forall name, variant :: name in grouped && variant in grouped[name] ==>
         LastMatch(metrics, name, variant) == Some(grouped[name][variant]))
    && (forall name, variant :: LastMatch(metrics, name, variant).Some? ==> name in grouped && variant in grouped[name])
  }

  /** `_group_metrics`: looking a pair up in the index is the linear last-match scan. */
  method GroupMetrics(metrics: seq<Metric>) returns (order: seq<string>, grouped: map<string, map<string, Metric>>)
    ensures Indexes(metrics, order, grouped)
  {
    order, grouped := [], map[];
    for i := 0 to |metrics|
      invariant Indexes(metrics[..i], order, grouped)
    {
      var metric := metrics[i];
      assert metrics[..i + 1][..i] == metrics[..i];
      if metric.metricName !in grouped {
        order := order + [metric.metricName];
        grouped := grouped[metric.metricName := map[]];
      }
      grouped := grouped[metric.metricName := grouped[metric.metricName][metric.variant := metric]];
    }
    assert metrics[..|metrics|] == metrics;
  }

  function ValueOf(metric: Option<Metric>): Option<real> {
    match metric
    case None => None
    case Some(m) => Some(m.value)
  }

  /** `_metric_values_from_state_metrics`: the scan agrees with the index on both variants. */
  method MetricValuesFromStateMetrics(metrics: seq<Metric>, primaryMetric: string)
    returns (baseline: Option<real>, treatment: Option<real>)
    ensures baseline == ValueOf(LastMatch(metrics, primaryMetric, "control"))
    ensures treatment == ValueOf(LastMatch(metrics, primaryMetric, "treatment"))
  {
    baseline, treatment := None, None;
    for i := 0 to |metrics|
      invariant baseline == ValueOf(LastMatch(metrics[..i], primaryMetric, "control"))
      invariant treatment == ValueOf(LastMatch(metrics[..i], primaryMetric, "treatment"))
    {
      var metric := metrics[i];
      assert metrics[..i + 1][..i] == metrics[..i];
      if metric.metricName != primaryMetric {
        continue;
      }
      if metric.variant == "control" {
        baseline := Some(metric.value);
      }
      if metric.variant == "treatment" {
        treatment := Some(metric.value);
      }
    }
    assert metrics[..|metrics|] == metrics;
  }

  // ---------------------------------------------------------------- read-back

  /** A row of the metrics table as far as read-back is concerned. */
  datatype StoredRow = StoredRow(name: string, value: real, liftVsControl: Option<real>, pValue: Option<real>)

  function StoreRow(m: Metric): StoredRow {
    StoredRow(StorageName(m.metricName, m.variant), m.value, m.liftVsControl, m.pValue)
  }

  /** The record that `get_metrics` builds from a row. */
  function LoadRow(row: StoredRow): Metric {
    var (metricName, variant) := SplitStorageName(row.name);
    Metric(metricName, variant, row.value, row.liftVsControl, row.pValue)
  }

  predicate DistinctStorageNames(metrics: seq<Metric>) {
    forall i, j :: 0 <= i < j < |metrics| ==>
      StorageName(metrics[i].metricName, metrics[i].variant) != StorageName(metrics[j].metricName, metrics[j].variant)
  }

  lemma {:induction false} LastMatchSound(metrics: seq<Metric>, metricName: string, variant: string)
    ensures match LastMatch(metrics, metricName, variant)
            case None => forall m :: m in metrics ==> m.metricName != metricName || m.variant != variant
            case Some(m) => m in metrics && m.metricName == metricName && m.variant == variant
  {
    if metrics != [] {
      var n := |metrics| - 1;
      LastMatchSound(metrics[..n], metricName, variant);
      assert metrics == metrics[..n] + [metrics[n]];
    }
  }

  /** The rows that are stored for the metrics, in whatever order the database returns them. */
  ghost predicate RowsFor(rows: seq<StoredRow>, inputs: seq<Metric>) {
    forall row :: row in rows <==> exists i :: 0 <= i < |inputs| && row == StoreRow(inputs[i])
  }

  function LoadRows(rows: seq<StoredRow>): seq<Metric> { seq(|rows|, k requires 0 <= k < |rows| => LoadRow(rows[k])) }

  /** A stored name is loaded as a pair exactly if it is the pair's storage name and the pair's name has no colon. */
  lemma LoadedAs(stored: Metric, metricName: string, variant: string)
    ensures var loaded := LoadRow(StoreRow(stored));
            (loaded.metricName == metricName && loaded.variant == variant) <==>
              ColonFree(metricName) && StorageName(stored.metricName, stored.variant) == StorageName(metricName, variant)
  {
    var s := StorageName(stored.metricName, stored.variant);
    assert s[|stored.metricName|] == ':';
    hide ColonAt;
    var i := ColonAt(s);
    StorageNameRoundTrip(metricName, variant);
    assert s == s[..i] + ":" + s[i + 1..];
  }

  /**
   What looking a pair up finds after the metrics were stored and loaded: the values that were ingested
   under its storage name, which only one metric has, if the name has no colon, and nothing otherwise.
   */
  lemma ReadBack(inputs: seq<Metric>, rows: seq<StoredRow>, metricName: string, variant: string)
    requires DistinctStorageNames(inputs) && RowsFor(rows, inputs)
    ensures LastMatch(LoadRows(rows), metricName, variant) == None <==>
              !ColonFree(metricName) || forall i :: 0 <= i < |inputs| ==>
                StorageName(inputs[i].metricName, inputs[i].variant) != StorageName(metricName, variant)
    ensures forall i :: 0 <= i < |inputs| && ColonFree(metricName)
                        && StorageName(inputs[i].metricName, inputs[i].variant) == StorageName(metricName, variant) ==>
              LastMatch(LoadRows(rows), metricName, variant)
              == Some(Metric(metricName, variant, inputs[i].value, inputs[i].liftVsControl, inputs[i].pValue))
  {
    LastMatchSound(LoadRows(rows), metricName, variant);
    forall i | 0 <= i < |inputs| ensures LoadRow(StoreRow(inputs[i])) in LoadRows(rows) {
      assert StoreRow(inputs[i]) in rows;
      var k :| 0 <= k < |rows| && rows[k] == StoreRow(inputs[i]);
      assert LoadRows(rows)[k] == LoadRow(StoreRow(inputs[i]));
    }
    forall i | 0 <= i < |inputs| ensures LoadedPair(inputs[i], metricName, variant) {
      LoadedAs(inputs[i], metricName, variant);
    }
    hide SplitStorageName, LastMatch, ColonFree, StorageName;
    match LastMatch(LoadRows(rows), metricName, variant)
    case None =>
    case Some(m) =>
      var k :| 0 <= k < |rows| && LoadRow(rows[k]) == m;
      assert rows[k] in rows;
      var j :| 0 <= j < |inputs| && rows[k] == StoreRow(inputs[j]);
      assert LoadedPair(inputs[j], metricName, variant);
  }

  /** `LoadedAs`, as a condition on one metric. */
  ghost predicate LoadedPair(stored: Metric, metricName: string, variant: string) {
    var loaded := LoadRow(StoreRow(stored));
    && ((loaded.metricName == metricName && loaded.variant == variant) <==>
          ColonFree(metricName) && StorageName(stored.metricName, stored.variant) == StorageName(metricName, variant))
    && loaded.value == stored.value && loaded.liftVsControl == stored.liftVsControl && loaded.pValue == stored.pValue
  }

  /** An ingested metric is found again exactly if its name has no colon, whatever the other names are. */
  lemma ReadBackValue(inputs: seq<Metric>, rows: seq<StoredRow>, i: nat)
    requires i < |inputs| && DistinctStorageNames(inputs) && RowsFor(rows, inputs)
    ensures LastMatch(LoadRows(rows), inputs[i].metricName, inputs[i].variant) == Some(inputs[i])
       <==> ColonFree(inputs[i].metricName)
  {
    hide StorageName, LastMatch, ColonFree, LoadRow;
    ReadBack(inputs, rows, inputs[i].metricName, inputs[i].variant);
  }

  /** Two pairs without colons have different storage names; a colon-free pair shares its storage name with no other. */
  lemma ColonFreePairIsUnique(m: Metric, metricName: string, variant: string)
    requires ColonFree(metricName) && ColonFree(variant)
    requires StorageName(m.metricName, m.variant) == StorageName(metricName, variant)
    ensures m.metricName == metricName && m.variant == variant
  {
    var s := StorageName(metricName, variant);
    var n := |m.metricName|;
    assert forall k :: 0 <= k < |s| && s[k] == ':' ==> k == |metricName|;
    assert s[n] == StorageName(m.metricName, m.variant)[n] == ':';
    assert s[..n] == m.metricName && s[..n] == metricName && s[n + 1..] == variant;
    assert StorageName(m.metricName, m.variant)[n + 1..] == m.variant;
  }

  /**
   For the variants `control` and `treatment`, as for any without a colon, the loaded metrics answer a lookup
   as the ingested list does if the name has no colon, and otherwise never: the metric is there but not found.
   */
  lemma LoadedAnswers(inputs: seq<Metric>, rows: seq<StoredRow>, metricName: string, variant: string)
    requires DistinctStorageNames(inputs) && RowsFor(rows, inputs) && ColonFree(variant)
    ensures LastMatch(LoadRows(rows), metricName, variant)
         == if ColonFree(metricName) then LastMatch(inputs, metricName, variant) else None
  {
    ReadBack(inputs, rows, metricName, variant);
    LastMatchSound(inputs, metricName, variant);
    hide StorageName, LastMatch, ColonFree, LoadRows, RowsFor, DistinctStorageNames;
    if ColonFree(metricName) {
      match LastMatch(inputs, metricName, variant)
      case Some(m) =>
        var i :| 0 <= i < |inputs| && inputs[i] == m;
      case None =>
        forall i | 0 <= i < |inputs|
          ensures StorageName(inputs[i].metricName, inputs[i].variant) != StorageName(metricName, variant)
        {
          if StorageName(inputs[i].metricName, inputs[i].variant) == StorageName(metricName, variant) {
            ColonFreePairIsUnique(inputs[i], metricName, variant);
          }
        }
    }
  }

  /** The metrics whose names have no colon, in order. */
  function ColonFreeNamed(metrics: seq<Metric>): seq<Metric> {
    if metrics == [] then []
    else
      var last := metrics[|metrics| - 1];
      ColonFreeNamed(metrics[..|metrics| - 1]) + (if ColonFree(last.metricName) then [last] else [])
  }

  lemma {:induction false} ColonFreeLookup(metrics: seq<Metric>, metricName: string, variant: string)
    ensures LastMatch(ColonFreeNamed(metrics), metricName, variant)
         == if ColonFree(metricName) then LastMatch(metrics, metricName, variant) else None
  {
    hide ColonFree;
    if metrics != [] {
      var before, last := metrics[..|metrics| - 1], metrics[|metrics| - 1];
      ColonFreeLookup(before, metricName, variant);
      if ColonFree(last.metricName) {
        assert ColonFreeNamed(metrics) == ColonFreeNamed(before) + [last];
        assert ColonFreeNamed(metrics)[..|ColonFreeNamed(before)|] == ColonFreeNamed(before);
      } else {
        assert ColonFreeNamed(metrics) == ColonFreeNamed(before);
      }
    }
  }
}
