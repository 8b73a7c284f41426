/** Reading an experiment directory (packages/ingestion/load_experiment.py); files arrive as what the parsers make of them. */
module ExperimentInputs {
  import opened Text
  import opened MetricStore

  /** A row of `metrics.csv`; missing cells are empty, and the lift and p-value cells are already parsed. */
  datatype CsvRow = CsvRow(
    experimentId: string, metricName: string, variant: string, rawValue: string,
    liftVsControl: Option<real>, pValue: Option<real>)

  /** `metrics.csv` as the CSV reader presents it. */
  datatype MetricsFile = MetricsFile(columns: set<string>, rows: seq<CsvRow>)

  const REQUIRED_METRIC_COLUMNS := {
    "experiment_id", "metric_name", "variant", "value", "unit", "numerator", "denominator", "lift_vs_control", "p_value",
    "notes"}

  datatype FileName = MetadataFile | MetricsCsv | ReportFile

  /** A path that is no file, a file that cannot be read, or its parsed content. */
  datatype File<T> = NoFile | Unreadable | Readable(content: T)

  /** The experiment directory; metadata that fails its validation is `None`. */
  datatype Directory =
    | NoDirectory
    | Directory(metadata: File<Option<Metadata>>, metrics: File<MetricsFile>, report: File<string>)

  datatype InputError =
    | DirectoryMissing | FileMissing(file: FileName) | FileUnreadable(file: FileName) | InvalidMetadata
    | MissingColumns(columns: set<string>)
    | WrongExperiment(line: nat) | EmptyMetricName(line: nat) | EmptyVariant(line: nat) | NonNumericValue(line: nat)
    | NoMetrics | DuplicateMetrics | EmptyReport

  /** `metadata.json`; `rest` stands for the fields that nothing below reads. */
  datatype Metadata = Metadata(
    experimentId: string, name: string, hypothesis: string, status: string,
    primaryMetric: string, imperfections: seq<string>, businessDecision: string, rest: string)

  datatype ExperimentInput = ExperimentInput(metadata: Metadata, metrics: seq<Metric>, reportPath: string, report: string)

  // ---------------------------------------------------------------- metrics.csv

  /** What is wrong with the row on a line, checked in the program's order; `parse` is `float(...)`. */
  function RowError(row: CsvRow, line: nat, experimentId: string, parse: string -> Option<real>): Option<InputError> {
    if Strip(row.experimentId) != experimentId then Some(WrongExperiment(line))
    else if Strip(row.metricName) == "" then Some(EmptyMetricName(line))
    else if Strip(row.variant) == "" then Some(EmptyVariant(line))
    else if parse(Strip(row.rawValue)) == None then Some(NonNumericValue(line))
    else None
  }

  function MetricOf(row: CsvRow, parse: string -> Option<real>): Metric {
    var value := parse(Strip(row.rawValue));
    Metric(Strip(row.metricName), Strip(row.variant), if value.Some? then value.value else 0.0, row.liftVsControl, row.pValue)
  }

  function StorageNames(metrics: seq<Metric>): seq<string> {
    seq(|metrics|, i requires 0 <= i < |metrics| => StorageName(metrics[i].metricName, metrics[i].variant))
  }

  /** The row belongs to the experiment, names a metric and a variant, and has a numeric value. */
  ghost predicate GoodRow(row: CsvRow, experimentId: string, parse: string -> Option<real>) {
    && Strip(row.experimentId) == experimentId && !Blank(row.metricName) && !Blank(row.variant)
    && parse(Strip(row.rawValue)).Some?
  }

  /** What an error about a row says: the line, and the first of the four demands that the row does not meet. */
  ghost predicate Reports(error: InputError, row: CsvRow, line: nat, experimentId: string, parse: string -> Option<real>) {
    match error
    case WrongExperiment(n) => n == line && Strip(row.experimentId) != experimentId
    case EmptyMetricName(n) => n == line && Strip(row.experimentId) == experimentId && Blank(row.metricName)
    case EmptyVariant(n) =>
      n == line && Strip(row.experimentId) == experimentId && !Blank(row.metricName) && Blank(row.variant)
    case NonNumericValue(n) =>
      && n == line && Strip(row.experimentId) == experimentId && !Blank(row.metricName) && !Blank(row.variant)
      && parse(Strip(row.rawValue)) == None
    case _ => false
  }

  lemma RowErrorReports(row: CsvRow, line: nat, experimentId: string, parse: string -> Option<real>)
    ensures RowError(row, line, experimentId, parse) == None <==> GoodRow(row, experimentId, parse)
    ensures RowError(row, line, experimentId, parse).Some?
        ==> Reports(RowError(row, line, experimentId, parse).value, row, line, experimentId, parse)
  {
    StripEdges(row.metricName);
    StripEdges(row.variant);
    hide Strip, Blank;
  }

  ghost predicate RowsAreFine(rows: seq<CsvRow>, experimentId: string, parse: string -> Option<real>) {
    forall i :: 0 <= i < |rows| ==> GoodRow(rows[i], experimentId, parse)
  }

  /** The metric holds what the row's cells say. */
  ghost predicate ReadFrom(m: Metric, row: CsvRow, parse: string -> Option<real>) {
    && m.metricName == Strip(row.metricName) && m.variant == Strip(row.variant)
    && parse(Strip(row.rawValue)) == Some(m.value)
    && m.liftVsControl == row.liftVsControl && m.pValue == row.pValue
  }

  /** There is one metric for every row, in the rows' order. */
  ghost predicate AllReadFrom(metrics: seq<Metric>, rows: seq<CsvRow>, parse: string -> Option<real>) {
    |metrics| == |rows| && forall i :: 0 <= i < |rows| ==> ReadFrom(metrics[i], rows[i], parse)
  }

  lemma MetricIsReadFrom(row: CsvRow, experimentId: string, parse: string -> Option<real>)
    requires GoodRow(row, experimentId, parse)
    ensures ReadFrom(MetricOf(row, parse), row, parse)
  {
    hide Strip, Blank;
  }

  /** `len(names) != len(set(names))` */
  method HasDuplicates(names: seq<string>) returns (duplicates: bool)
    ensures duplicates <==> exists i, j :: 0 <= i < j < |names| && names[i] == names[j]
  {
    var distinct: set<string> := {};
    duplicates := false;
    for i := 0 to |names|
      invariant forall name :: name in distinct <==> name in names[..i]
      invariant duplicates <==> exists j, k :: 0 <= j < k < i && names[j] == names[k]
    {
      if names[i] in distinct {
        var j :| 0 <= j < i && names[j] == names[i];
        duplicates := true;
      }
      distinct := distinct + {names[i]};
    }
  }

  lemma DistinctNames(metrics: seq<Metric>)
    ensures var names := StorageNames(metrics);
            DistinctStorageNames(metrics) <==> !exists i, j :: 0 <= i < j < |names| && names[i] == names[j]
  {
    hide StorageName;
    var names := StorageNames(metrics);
    forall i | 0 <= i < |metrics| ensures names[i] == StorageName(metrics[i].metricName, metrics[i].variant) {}
    if DistinctStorageNames(metrics) {
      forall i, j | 0 <= i < j < |names| ensures names[i] != names[j] {
        assert StorageName(metrics[i].metricName, metrics[i].variant) != StorageName(metrics[j].metricName, metrics[j].variant);
      }
    } else {
      var i, j :| 0 <= i < j < |metrics|
                  && StorageName(metrics[i].metricName, metrics[i].variant) == StorageName(metrics[j].metricName, metrics[j].variant);
      assert names[i] == names[j];
    }
  }

  /** What a row's metric is stored under. */
  function RowName(row: CsvRow): string { Strip(row.metricName) + ":" + Strip(row.variant) }

  lemma RowNames(metrics: seq<Metric>, rows: seq<CsvRow>, parse: string -> Option<real>)
    requires AllReadFrom(metrics, rows, parse)
    ensures DistinctStorageNames(metrics) <==> forall i, j :: 0 <= i < j < |rows| ==> RowName(rows[i]) != RowName(rows[j])
  {
    hide Strip, Blank;
    assert forall i :: 0 <= i < |rows| ==> RowName(rows[i]) == StorageName(metrics[i].metricName, metrics[i].variant);
    hide RowName, StorageName, ReadFrom;
  }

  /** The file is accepted: it has the columns, every row is fine, and there are rows with distinct names. */
  ghost predicate AcceptedMetrics(file: MetricsFile, experimentId: string, parse: string -> Option<real>) {
    && REQUIRED_METRIC_COLUMNS <= file.columns && RowsAreFine(file.rows, experimentId, parse)
    && file.rows != []
    && forall i, j :: 0 <= i < j < |file.rows| ==> RowName(file.rows[i]) != RowName(file.rows[j])
  }

  /** Which error a file that is not accepted is reported with. */
  ghost predicate MetricsFail(error: InputError, file: MetricsFile, experimentId: string, parse: string -> Option<real>) {
    if !(REQUIRED_METRIC_COLUMNS <= file.columns) then error == MissingColumns(REQUIRED_METRIC_COLUMNS - file.columns)
    else if !RowsAreFine(file.rows, experimentId, parse) then
      exists i :: 0 <= i < |file.rows| && RowsAreFine(file.rows[..i], experimentId, parse)
                  && Reports(error, file.rows[i], i + 2, experimentId, parse)
    else error == if file.rows == [] then NoMetrics else DuplicateMetrics
  }

  /**
   `_read_metrics`: missing columns are reported first, then the first bad line, then a file without rows
   and repeated names; otherwise the cells of all rows are returned. Data lines are numbered from 2: the header is line 1.
   */
  method ReadMetrics(file: MetricsFile, experimentId: string, parse: string -> Option<real>)
    returns (result: Result<seq<Metric>, InputError>)
    ensures result.Ok? <==> AcceptedMetrics(file, experimentId, parse)
    ensures result.Ok? ==> AllReadFrom(result.value, file.rows, parse) && DistinctStorageNames(result.value)
    ensures result.Err? ==> MetricsFail(result.error, file, experimentId, parse)
  {
    hide RowError, MetricOf, StorageName, REQUIRED_METRIC_COLUMNS, ReadFrom, GoodRow, Reports, RowName, DistinctStorageNames;
    var missing := REQUIRED_METRIC_COLUMNS - file.columns;
    if missing != {} {
      return Err(MissingColumns(missing));
    }
    var rows := file.rows;
    assert REQUIRED_METRIC_COLUMNS <= file.columns by {
      forall column | column in REQUIRED_METRIC_COLUMNS ensures column in file.columns { assert column !in missing; }
    }
    var metrics: seq<Metric> := [];
    for i := 0 to |rows|
      invariant RowsAreFine(rows[..i], experimentId, parse)
      invariant AllReadFrom(metrics, rows[..i], parse)
    {
      RowErrorReports(rows[i], i + 2, experimentId, parse);
      var problem := RowError(rows[i], i + 2, experimentId, parse);
      if problem.Some? {
        return Err(problem.value);
      }
      MetricIsReadFrom(rows[i], experimentId, parse);
      metrics := metrics + [MetricOf(rows[i], parse)];
    }
    assert rows[..|rows|] == rows;
    if metrics == [] {
      return Err(NoMetrics);
    }
    var duplicates := HasDuplicates(StorageNames(metrics));
    DistinctNames(metrics);
    RowNames(metrics, rows, parse);
    if duplicates {
      return Err(DuplicateMetrics);
    }
    return Ok(metrics);
  }

  // ---------------------------------------------------------------- the report

  const TITLE_PREFIX := "# "

  /** The text of the first level-one heading, or the fallback when there is none or it is blank. */
  function TitleOf(lines: seq<string>, fallback: string): string {
    if lines == [] then fallback
    else
      var stripped := Strip(lines[0]);
      if TITLE_PREFIX <= stripped then
        var title := Strip(stripped[|TITLE_PREFIX|..]);
        if title != "" then title else fallback
      else TitleOf(lines[1..], fallback)
  }

  /** `_document_title` */
  method DocumentTitle(report: string, fallback: string) returns (title: string)
    ensures title == TitleOf(SplitLines(report), fallback)
  {
    hide Strip, SplitLines;
    var lines := SplitLines(report);
    for i := 0 to |lines|
      invariant TitleOf(lines, fallback) == TitleOf(lines[i..], fallback)
    {
      var stripped := Strip(lines[i]);
      if TITLE_PREFIX <= stripped {
        title := Strip(stripped[|TITLE_PREFIX|..]);
        return if title != "" then title else fallback;
      }
      assert lines[i..][1..] == lines[i + 1..];
    }
    assert lines[|lines|..] == [];
    return fallback;
  }

  /** The line starts, after whitespace, with a hash and a space. */
  predicate IsTitleLine(line: string) { var s := Strip(line); |s| >= 2 && s[0] == '#' && s[1] == ' ' }

  lemma TitleLineIs(line: string)
    ensures IsTitleLine(line) <==> TITLE_PREFIX <= Strip(line)
    ensures |TITLE_PREFIX| == 2
  {
    hide Strip;
  }

  /** The title is what the first such line says after the hash, or the fallback if it says nothing or there is no such line. */
  lemma {:induction false} TitleExactly(lines: seq<string>, fallback: string, i: nat)
    requires i <= |lines| && forall k :: 0 <= k < i ==> !IsTitleLine(lines[k])
    ensures i == |lines| ==> TitleOf(lines, fallback) == fallback
    ensures i < |lines| && IsTitleLine(lines[i]) ==>
              TitleOf(lines, fallback) == if Blank(Strip(lines[i])[2..]) then fallback else Strip(Strip(lines[i])[2..])
  {
    if i < |lines| {
      TitleLineIs(lines[i]);
    }
    if lines != [] {
      TitleLineIs(lines[0]);
    }
    hide Strip, IsTitleLine, Blank, TITLE_PREFIX;
    if i > 0 {
      TitleExactly(lines[1..], fallback, i - 1);
    } else if lines != [] && IsTitleLine(lines[0]) {
      StripEdges(Strip(lines[0])[2..]);
    }
  }

  /** A title is never blank unless the fallback is, and never has outer whitespace unless the fallback has. */
  lemma {:induction false} TitleIsClean(lines: seq<string>, fallback: string)
    ensures var title := TitleOf(lines, fallback);
            title == fallback || (title != "" && Strip(title) == title)
  {
    hide Strip;
    if lines != [] {
      var stripped := Strip(lines[0]);
      if TITLE_PREFIX <= stripped {
        StripIdempotent(stripped[|TITLE_PREFIX|..]);
      } else {
        TitleIsClean(lines[1..], fallback);
      }
    }
  }

  /** The directory holds an experiment: three readable files with valid metadata, accepted metrics and a report with text. */
  ghost predicate HoldsExperiment(directory: Directory, parse: string -> Option<real>) {
    && directory.Directory? && directory.metadata.Readable? && directory.metrics.Readable? && directory.report.Readable?
    && directory.metadata.content.Some?
    && AcceptedMetrics(directory.metrics.content, directory.metadata.content.value.experimentId, parse)
    && !Blank(directory.report.content)
  }

  /** Which error a directory without an experiment is reported with. */
  ghost predicate LoadFails(error: InputError, directory: Directory, parse: string -> Option<real>) {
    match directory
    case NoDirectory => error == DirectoryMissing
    case Directory(metadata, metrics, report) =>
      if metadata.NoFile? then error == FileMissing(MetadataFile)
      else if metrics.NoFile? then error == FileMissing(MetricsCsv)
      else if report.NoFile? then error == FileMissing(ReportFile)
      else if metadata.Unreadable? then error == FileUnreadable(MetadataFile)
      else if metadata.content == None then error == InvalidMetadata
      else if metrics.Unreadable? then error == FileUnreadable(MetricsCsv)
      else if !AcceptedMetrics(metrics.content, metadata.content.value.experimentId, parse)
        then MetricsFail(error, metrics.content, metadata.content.value.experimentId, parse)
      else error == if report.Unreadable? then FileUnreadable(ReportFile) else EmptyReport
  }

  /** `load_experiment_files`: all three files are looked for before any of them is read. */
  method LoadExperiment(directory: Directory, reportPath: string, parse: string -> Option<real>)
    returns (result: Result<ExperimentInput, InputError>)
    ensures result.Ok? <==> HoldsExperiment(directory, parse)
    ensures result.Ok? ==>
              var input := result.value;
              && input.metadata == directory.metadata.content.value && input.reportPath == reportPath
              && input.report == directory.report.content
              && AllReadFrom(input.metrics, directory.metrics.content.rows, parse)
              && input.metrics != [] && DistinctStorageNames(input.metrics)
    ensures result.Err? ==> LoadFails(result.error, directory, parse)
  {
    hide RowsAreFine, Strip, DistinctStorageNames, REQUIRED_METRIC_COLUMNS, ReadFrom, RowName, MetricsFail, Blank;
    if directory == NoDirectory {
      return Err(DirectoryMissing);
    }
    if directory.metadata.NoFile? {
      return Err(FileMissing(MetadataFile));
    }
    if directory.metrics.NoFile? {
      return Err(FileMissing(MetricsCsv));
    }
    if directory.report.NoFile? {
      return Err(FileMissing(ReportFile));
    }
    if directory.metadata.Unreadable? {
      return Err(FileUnreadable(MetadataFile));
    }
    if directory.metadata.content == None {
      return Err(InvalidMetadata);
    }
    var metadata := directory.metadata.content.value;
    if directory.metrics.Unreadable? {
      return Err(FileUnreadable(MetricsCsv));
    }
    var metrics := ReadMetrics(directory.metrics.content, metadata.experimentId, parse);
    match metrics
    case Err(error) => return Err(error);
    case Ok(value) =>
      if directory.report.Unreadable? {
        return Err(FileUnreadable(ReportFile));
      }
      StripEdges(directory.report.content);
      if Strip(directory.report.content) == "" {
        return Err(EmptyReport);
      }
      return Ok(ExperimentInput(metadata, value, reportPath, directory.report.content));
  }
}
