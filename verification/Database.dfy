/**
 The four tables ingestion writes (packages/db/models.py) and the replace-style ingestion
 transaction (packages/ingestion/load_experiment.py).
 */
module Database {
  import opened Text
  import opened MetricStore
  import opened Chunking
  import opened ExperimentInputs

  // ---------------------------------------------------------------- tables

  /** The configuration column holds the whole metadata. */
  datatype ExperimentRow = ExperimentRow(name: string, description: string, config: Metadata, status: string)
  datatype MetricRow = MetricRow(experimentId: nat, data: StoredRow)
  datatype DocumentData = DocumentData(sourceUri: string, title: string, content: string)
  datatype DocumentRow = DocumentRow(experimentId: nat, data: DocumentData)
  datatype ChunkData = ChunkData(chunkIndex: nat, text: string, tokenCount: nat)
  datatype ChunkRow = ChunkRow(documentId: nat, data: ChunkData)

  /** Rows by primary key; keys are drawn from `nextId` on. */
  datatype Tables = Tables(
    experiments: map<nat, ExperimentRow>, metrics: map<nat, MetricRow>,
    documents: map<nat, DocumentRow>, chunks: map<nat, ChunkRow>, nextId: nat)

  /** The unique constraints of the schema, table by table. */
  ghost predicate UniqueNames(experiments: map<nat, ExperimentRow>) {
    forall a, b :: a in experiments && b in experiments && experiments[a].name == experiments[b].name ==> a == b
  }

  ghost predicate UniqueMetrics(metrics: map<nat, MetricRow>) {
    forall a, b :: a in metrics && b in metrics && SameMetric(metrics[a], metrics[b]) ==> a == b
  }

  predicate SameMetric(a: MetricRow, b: MetricRow) { a.experimentId == b.experimentId && a.data.name == b.data.name }

  ghost predicate UniqueDocuments(documents: map<nat, DocumentRow>) {
    forall a, b :: a in documents && b in documents && SameDocument(documents[a], documents[b]) ==> a == b
  }

  predicate SameDocument(a: DocumentRow, b: DocumentRow) {
    a.experimentId == b.experimentId && a.data.sourceUri == b.data.sourceUri
  }

  ghost predicate UniqueChunks(chunks: map<nat, ChunkRow>) {
    forall a, b :: a in chunks && b in chunks && SameChunk(chunks[a], chunks[b]) ==> a == b
  }

  predicate SameChunk(a: ChunkRow, b: ChunkRow) {
    a.documentId == b.documentId && a.data.chunkIndex == b.data.chunkIndex
  }

  /** The foreign keys of the schema. */
  ghost predicate ForeignKeys(t: Tables) {
    && (forall m :: m in t.metrics ==> t.metrics[m].experimentId in t.experiments)
    && (forall d :: d in t.documents ==> t.documents[d].experimentId in t.experiments)
    && (forall c :: c in t.chunks ==> t.chunks[c].documentId in t.documents)
  }

  ghost predicate FreshIds(t: Tables) {
    && (forall e :: e in t.experiments ==> e < t.nextId)
    && (forall m :: m in t.metrics ==> m < t.nextId)
    && (forall d :: d in t.documents ==> d < t.nextId)
    && (forall c :: c in t.chunks ==> c < t.nextId)
  }

  ghost predicate ValidTables(t: Tables) {
    && UniqueNames(t.experiments) && UniqueMetrics(t.metrics) && UniqueDocuments(t.documents) && UniqueChunks(t.chunks)
    && ForeignKeys(t) && FreshIds(t)
  }

  // ---------------------------------------------------------------- what is stored for an experiment

  datatype Contents = Contents(
    experiment: ExperimentRow, metrics: set<StoredRow>, documents: set<DocumentData>, chunks: set<ChunkData>)

  ghost function MetricsOf(metrics: map<nat, MetricRow>, e: nat): set<StoredRow> {
    set m | m in metrics && metrics[m].experimentId == e :: metrics[m].data
  }

  ghost function DocumentsOf(documents: map<nat, DocumentRow>, e: nat): set<DocumentData> {
    set d | d in documents && documents[d].experimentId == e :: documents[d].data
  }

  ghost function ChunksOf(chunks: map<nat, ChunkRow>, documents: map<nat, DocumentRow>, e: nat): set<ChunkData> {
    set c | c in chunks && chunks[c].documentId in documents && documents[chunks[c].documentId].experimentId == e :: chunks[c].data
  }

  ghost function ContentsOf(t: Tables, e: nat): Contents
    requires e in t.experiments
  {
    Contents(t.experiments[e], MetricsOf(t.metrics, e), DocumentsOf(t.documents, e), ChunksOf(t.chunks, t.documents, e))
  }

  /** The defaults of `chunk_markdown_report`. */
  const TARGET: nat := 2800
  const OVERLAP: nat := 350

  function ChunkRowsOf(chunks: seq<MarkdownChunk>): seq<ChunkData> {
    seq(|chunks|, k requires 0 <= k < |chunks| => ChunkData(chunks[k].chunkIndex, chunks[k].text, chunks[k].tokenCount))
  }

  function ReportChunkData(report: string): seq<ChunkData> {
    ChunkRowsOf(ReportChunks(SectionsOf(GroupLines(SplitLines(report))), TARGET, OVERLAP))
  }

  function ExperimentOf(m: Metadata): ExperimentRow { ExperimentRow(m.name, m.hypothesis, m, m.status) }

  function DocumentOf(input: ExperimentInput): DocumentData {
    DocumentData(input.reportPath, TitleOf(SplitLines(input.report), input.metadata.name), input.report)
  }

  function Stored(metrics: seq<Metric>): set<StoredRow> { set m | m in metrics :: StoreRow(m) }

  function ChunkSet(chunks: seq<ChunkData>): set<ChunkData> { set c | c in chunks }

  /** What an input should leave in the database. */
  function Expected(input: ExperimentInput): Contents {
    Contents(ExperimentOf(input.metadata), Stored(input.metrics), {DocumentOf(input)},
             ChunkSet(ReportChunkData(input.report)))
  }

  // ---------------------------------------------------------------- statements, as functions on the tables

  function AddExperiment(t: Tables, row: ExperimentRow): Tables {
    t.(experiments := t.experiments[t.nextId := row], nextId := t.nextId + 1)
  }

  function SetExperiment(t: Tables, e: nat, row: ExperimentRow): Tables { t.(experiments := t.experiments[e := row]) }

  /** `DELETE FROM documents`, cascading to their chunks. */
  function DeleteDocuments(t: Tables, e: nat): Tables {
    var documents := map d | d in t.documents && t.documents[d].experimentId != e :: t.documents[d];
    t.(documents := documents, chunks := map c | c in t.chunks && t.chunks[c].documentId in documents :: t.chunks[c])
  }

  function DeleteMetrics(t: Tables, e: nat): Tables {
    t.(metrics := map m | m in t.metrics && t.metrics[m].experimentId != e :: t.metrics[m])
  }

  function AddMetric(t: Tables, e: nat, data: StoredRow): Tables {
    t.(metrics := t.metrics[t.nextId := MetricRow(e, data)], nextId := t.nextId + 1)
  }

  function AddDocument(t: Tables, e: nat, data: DocumentData): Tables {
    t.(documents := t.documents[t.nextId := DocumentRow(e, data)], nextId := t.nextId + 1)
  }

  function AddChunk(t: Tables, d: nat, data: ChunkData): Tables {
    t.(chunks := t.chunks[t.nextId := ChunkRow(d, data)], nextId := t.nextId + 1)
  }

  function DeleteChunks(t: Tables, d: nat): Tables {
    t.(chunks := map c | c in t.chunks && t.chunks[c].documentId != d :: t.chunks[c])
  }

  function AddMetrics(t: Tables, e: nat, metrics: seq<Metric>): Tables {
    if metrics == [] then t
    else AddMetric(AddMetrics(t, e, metrics[..|metrics| - 1]), e, StoreRow(metrics[|metrics| - 1]))
  }

  function AddChunks(t: Tables, d: nat, chunks: seq<ChunkData>): Tables {
    if chunks == [] then t else AddChunk(AddChunks(t, d, chunks[..|chunks| - 1]), d, chunks[|chunks| - 1])
  }

  // ---------------------------------------------------------------- each statement keeps the schema

  /** The rows of all experiments but one. */
  ghost function OtherExperiments(experiments: map<nat, ExperimentRow>, e: nat): map<nat, ExperimentRow> {
    map x | x in experiments && x != e :: experiments[x]
  }

  ghost function OtherMetrics(metrics: map<nat, MetricRow>, e: nat): map<nat, MetricRow> {
    map m | m in metrics && metrics[m].experimentId != e :: metrics[m]
  }

  ghost function OtherDocuments(documents: map<nat, DocumentRow>, e: nat): map<nat, DocumentRow> {
    map d | d in documents && documents[d].experimentId != e :: documents[d]
  }

  ghost function OtherChunks(chunks: map<nat, ChunkRow>, documents: map<nat, DocumentRow>, e: nat): map<nat, ChunkRow> {
    map c | c in chunks && chunks[c].documentId in OtherDocuments(documents, e) :: chunks[c]
  }

  /** Everything stored for the other experiments is as before, ids included. */
  ghost predicate OthersKept(before: Tables, after: Tables, e: nat) {
    && OtherExperiments(after.experiments, e) == OtherExperiments(before.experiments, e)
    && OtherMetrics(after.metrics, e) == OtherMetrics(before.metrics, e)
    && OtherDocuments(after.documents, e) == OtherDocuments(before.documents, e)
    && OtherChunks(after.chunks, after.documents, e) == OtherChunks(before.chunks, before.documents, e)
  }

  lemma OtherMetricsContents(before: map<nat, MetricRow>, after: map<nat, MetricRow>, e: nat, x: nat)
    requires OtherMetrics(after, e) == OtherMetrics(before, e) && x != e
    ensures MetricsOf(after, x) == MetricsOf(before, x)
  {
    assert forall m :: m in before && before[m].experimentId == x ==> m in OtherMetrics(before, e);
    assert forall m :: m in after && after[m].experimentId == x ==> m in OtherMetrics(after, e);
  }

  lemma OtherDocumentsContents(before: map<nat, DocumentRow>, after: map<nat, DocumentRow>, e: nat, x: nat)
    requires OtherDocuments(after, e) == OtherDocuments(before, e) && x != e
    ensures DocumentsOf(after, x) == DocumentsOf(before, x)
  {
    assert forall d :: d in before && before[d].experimentId == x ==> d in OtherDocuments(before, e);
    assert forall d :: d in after && after[d].experimentId == x ==> d in OtherDocuments(after, e);
  }

  lemma OtherChunksContents(a: map<nat, ChunkRow>, b: map<nat, ChunkRow>, c: map<nat, DocumentRow>,
                            d: map<nat, DocumentRow>, e: nat, x: nat)
    requires OtherDocuments(c, e) == OtherDocuments(d, e) && OtherChunks(a, c, e) == OtherChunks(b, d, e) && x != e
    ensures ChunksOf(a, c, x) == ChunksOf(b, d, x)
  {
    assert forall k :: k in a && a[k].documentId in c && c[a[k].documentId].experimentId == x ==> k in OtherChunks(a, c, e);
    assert forall k :: k in b && b[k].documentId in d && d[b[k].documentId].experimentId == x ==> k in OtherChunks(b, d, e);
    assert forall k :: k in OtherDocuments(c, e) ==> c[k] == OtherDocuments(c, e)[k] && d[k] == OtherDocuments(d, e)[k];
  }

  lemma OthersContents(before: Tables, after: Tables, e: nat, x: nat)
    requires OthersKept(before, after, e) && x in before.experiments && x != e
    ensures x in after.experiments && ContentsOf(after, x) == ContentsOf(before, x)
  {
    assert x in OtherExperiments(before.experiments, e);
    hide MetricsOf, DocumentsOf, ChunksOf, OtherMetrics, OtherDocuments, OtherChunks;
    OtherMetricsContents(before.metrics, after.metrics, e, x);
    OtherDocumentsContents(before.documents, after.documents, e, x);
    OtherChunksContents(after.chunks, before.chunks, after.documents, before.documents, e, x);
  }

  // ---------------------------------------------------------------- inserting rows

  lemma InsertMetric(metrics: map<nat, MetricRow>, id: nat, e: nat, data: StoredRow)
    requires id !in metrics && UniqueMetrics(metrics)
    requires forall m :: m in metrics ==> !SameMetric(metrics[m], MetricRow(e, data))
    ensures var after := metrics[id := MetricRow(e, data)];
            && UniqueMetrics(after) && OtherMetrics(after, e) == OtherMetrics(metrics, e)
            && MetricsOf(after, e) == MetricsOf(metrics, e) + {data}
  {
    var after := metrics[id := MetricRow(e, data)];
    forall r ensures r in MetricsOf(after, e) <==> r in MetricsOf(metrics, e) || r == data {
      if r in MetricsOf(metrics, e) {
        var m :| m in metrics && metrics[m].experimentId == e && metrics[m].data == r;
        assert after[m] == metrics[m];
      }
      if r == data {
        assert after[id].data == r;
      }
    }
  }

  lemma InsertDocument(documents: map<nat, DocumentRow>, id: nat, e: nat, data: DocumentData)
    requires id !in documents && UniqueDocuments(documents) && forall d :: d in documents ==> documents[d].experimentId != e
    ensures var after := documents[id := DocumentRow(e, data)];
            UniqueDocuments(after) && OtherDocuments(after, e) == OtherDocuments(documents, e) && DocumentsOf(after, e) == {data}
  {
    var after := documents[id := DocumentRow(e, data)];
    assert after[id].data in DocumentsOf(after, e);
  }

  lemma InsertChunk(chunks: map<nat, ChunkRow>, documents: map<nat, DocumentRow>, id: nat, d: nat, e: nat,
                    data: ChunkData)
    requires id !in chunks && UniqueChunks(chunks) && d in documents && documents[d].experimentId == e
    requires forall c :: c in chunks ==> !SameChunk(chunks[c], ChunkRow(d, data))
    ensures var after := chunks[id := ChunkRow(d, data)];
            && UniqueChunks(after) && OtherChunks(after, documents, e) == OtherChunks(chunks, documents, e)
            && ChunksOf(after, documents, e) == ChunksOf(chunks, documents, e) + {data}
  {
    var after := chunks[id := ChunkRow(d, data)];
    forall r ensures r in ChunksOf(after, documents, e) <==> r in ChunksOf(chunks, documents, e) || r == data {
      if r in ChunksOf(chunks, documents, e) {
        var c :| c in chunks && chunks[c].documentId in documents && documents[chunks[c].documentId].experimentId == e
                 && chunks[c].data == r;
        assert after[c] == chunks[c];
      }
      if r == data {
        assert after[id].data == r;
      }
    }
  }

  // ---------------------------------------------------------------- each statement of the transaction

  /** Nothing is stored for experiment `e`. */
  ghost predicate NoEvidence(t: Tables, e: nat) {
    && (forall m :: m in t.metrics ==> t.metrics[m].experimentId != e)
    && (forall d :: d in t.documents ==> t.documents[d].experimentId != e)
  }

  lemma DeletionKeepsOthers(t: Tables, e: nat)
    requires ForeignKeys(t)
    ensures var after := DeleteMetrics(DeleteDocuments(t, e), e);
            OthersKept(t, after, e) && NoEvidence(after, e)
  {
    var after := DeleteMetrics(DeleteDocuments(t, e), e);
    assert after.metrics == OtherMetrics(t.metrics, e) == OtherMetrics(after.metrics, e);
    assert after.documents == OtherDocuments(t.documents, e) == OtherDocuments(after.documents, e);
    hide OtherMetrics, OtherDocuments, NoEvidence;
    assert after.chunks == OtherChunks(t.chunks, t.documents, e) == OtherChunks(after.chunks, after.documents, e);
  }

  /** `DELETE` in the program's order removes all evidence of `e`, its chunks included, and nothing else. */
  lemma DeletionKeeps(t: Tables, e: nat)
    requires ValidTables(t)
    ensures var after := DeleteMetrics(DeleteDocuments(t, e), e);
            && ValidTables(after) && OthersKept(t, after, e) && NoEvidence(after, e)
            && after.experiments == t.experiments && after.nextId == t.nextId
  {
    hide OthersKept, NoEvidence, UniqueNames, UniqueMetrics, UniqueDocuments, UniqueChunks, ForeignKeys, FreshIds,
      DeleteMetrics, DeleteDocuments;
    DeletionKeepsOthers(t, e);
    DeletionKeepsKeys(t, e);
    DeletionKeepsReferences(t, e);
  }

  lemma DeletionKeepsKeys(t: Tables, e: nat)
    requires UniqueMetrics(t.metrics) && UniqueDocuments(t.documents) && UniqueChunks(t.chunks)
    ensures var after := DeleteMetrics(DeleteDocuments(t, e), e);
            UniqueMetrics(after.metrics) && UniqueDocuments(after.documents) && UniqueChunks(after.chunks)
  {
    hide SameMetric, SameDocument, SameChunk;
  }

  lemma DeletionKeepsReferences(t: Tables, e: nat)
    requires ForeignKeys(t) && FreshIds(t)
    ensures var after := DeleteMetrics(DeleteDocuments(t, e), e);
            ForeignKeys(after) && FreshIds(after) && after.experiments == t.experiments && after.nextId == t.nextId
  {
  }

  /** The metric rows of `e` are those of `metrics`. */
  ghost predicate HoldsMetrics(t: Tables, e: nat, metrics: seq<Metric>) {
    && MetricsOf(t.metrics, e) == Stored(metrics)
    && forall m :: m in t.metrics && t.metrics[m].experimentId == e ==> t.metrics[m].data in Stored(metrics)
  }

  /** The tables other than the metrics are as they were. */
  predicate OnlyMetricsChanged(t: Tables, after: Tables) {
    after.experiments == t.experiments && after.documents == t.documents && after.chunks == t.chunks && after.nextId >= t.nextId
  }

  lemma NameIsFree(t: Tables, e: nat, metrics: seq<Metric>, n: nat)
    requires n < |metrics| && DistinctStorageNames(metrics) && HoldsMetrics(t, e, metrics[..n])
    ensures forall m :: m in t.metrics ==> !SameMetric(t.metrics[m], MetricRow(e, StoreRow(metrics[n])))
  {
    hide MetricsOf, StorageName;
    forall m | m in t.metrics && t.metrics[m].experimentId == e ensures t.metrics[m].data.name != StoreRow(metrics[n]).name {
      var x :| x in metrics[..n] && StoreRow(x) == t.metrics[m].data;
    }
  }

  lemma AddMetricKeeps(t: Tables, e: nat, metrics: seq<Metric>, n: nat)
    requires n < |metrics| && DistinctStorageNames(metrics) && ValidTables(t) && e in t.experiments
    requires HoldsMetrics(t, e, metrics[..n])
    ensures var after := AddMetric(t, e, StoreRow(metrics[n]));
            && ValidTables(after) && OthersKept(t, after, e) && OnlyMetricsChanged(t, after)
            && HoldsMetrics(after, e, metrics[..n + 1])
  {
    NameIsFree(t, e, metrics, n);
    var data := StoreRow(metrics[n]);
    InsertMetric(t.metrics, t.nextId, e, data);
    assert metrics[..n + 1] == metrics[..n] + [metrics[n]];
    assert Stored(metrics[..n + 1]) == Stored(metrics[..n]) + {data};
    hide UniqueMetrics, StoreRow, Stored, OtherMetrics, OtherDocuments, OtherChunks, OtherExperiments, MetricsOf,
      DistinctStorageNames;
    ValidWithMetric(t, e, data);
    hide ValidTables;
  }

  lemma ValidWithMetric(t: Tables, e: nat, data: StoredRow)
    requires ValidTables(t) && e in t.experiments && UniqueMetrics(t.metrics[t.nextId := MetricRow(e, data)])
    ensures ValidTables(AddMetric(t, e, data))
  {
    hide UniqueMetrics, UniqueNames, UniqueDocuments, UniqueChunks;
  }

  lemma ValidWithChunk(t: Tables, d: nat, data: ChunkData)
    requires ValidTables(t) && d in t.documents && UniqueChunks(t.chunks[t.nextId := ChunkRow(d, data)])
    ensures ValidTables(AddChunk(t, d, data))
  {
    hide UniqueMetrics, UniqueNames, UniqueDocuments, UniqueChunks;
  }

  lemma {:induction false} AddMetricsKeeps(t: Tables, e: nat, metrics: seq<Metric>, n: nat)
    requires n <= |metrics| && DistinctStorageNames(metrics) && ValidTables(t) && e in t.experiments && NoEvidence(t, e)
    ensures var after := AddMetrics(t, e, metrics[..n]);
            && ValidTables(after) && OthersKept(t, after, e) && OnlyMetricsChanged(t, after)
            && HoldsMetrics(after, e, metrics[..n])
  {
    if n > 0 {
      AddMetricsKeeps(t, e, metrics, n - 1);
      assert metrics[..n][..n - 1] == metrics[..n - 1];
      var before := AddMetrics(t, e, metrics[..n - 1]);
      AddMetricKeeps(before, e, metrics, n - 1);
      hide ValidTables, HoldsMetrics, AddMetric, DistinctStorageNames, OtherMetrics, OtherDocuments, OtherChunks,
        OtherExperiments, NoEvidence, StoreRow;
    }
  }

  /** The chunk rows of `d` are those of `chunks`. */
  ghost predicate HoldsChunks(t: Tables, d: nat, e: nat, chunks: seq<ChunkData>) {
    && ChunksOf(t.chunks, t.documents, e) == ChunkSet(chunks)
    && forall c :: c in t.chunks && t.chunks[c].documentId == d ==> t.chunks[c].data in chunks
  }

  predicate OnlyChunksChanged(t: Tables, after: Tables) {
    after.experiments == t.experiments && after.documents == t.documents && after.metrics == t.metrics && after.nextId >= t.nextId
  }

  ghost predicate NumberedData(chunks: seq<ChunkData>) { forall k :: 0 <= k < |chunks| ==> chunks[k].chunkIndex == k }

  lemma IndexIsFree(t: Tables, d: nat, e: nat, chunks: seq<ChunkData>, n: nat)
    requires n < |chunks| && NumberedData(chunks) && HoldsChunks(t, d, e, chunks[..n])
    ensures forall c :: c in t.chunks ==> !SameChunk(t.chunks[c], ChunkRow(d, chunks[n]))
  {
    hide ChunksOf, ChunkSet;
    forall c | c in t.chunks && t.chunks[c].documentId == d ensures t.chunks[c].data.chunkIndex != n {
      var k :| 0 <= k < n && chunks[..n][k] == t.chunks[c].data;
    }
  }

  lemma AddChunkHolds(t: Tables, d: nat, e: nat, chunks: seq<ChunkData>, n: nat)
    requires n < |chunks| && t.nextId !in t.chunks && UniqueChunks(t.chunks)
    requires d in t.documents && t.documents[d].experimentId == e && HoldsChunks(t, d, e, chunks[..n])
    requires forall c :: c in t.chunks ==> !SameChunk(t.chunks[c], ChunkRow(d, chunks[n]))
    ensures HoldsChunks(AddChunk(t, d, chunks[n]), d, e, chunks[..n + 1])
  {
    InsertChunk(t.chunks, t.documents, t.nextId, d, e, chunks[n]);
    assert chunks[..n + 1] == chunks[..n] + [chunks[n]];
    assert ChunkSet(chunks[..n + 1]) == ChunkSet(chunks[..n]) + {chunks[n]};
    hide UniqueChunks, ChunksOf, SameChunk, ChunkSet;
  }

  lemma AddChunkKeeps(t: Tables, d: nat, e: nat, chunks: seq<ChunkData>, n: nat)
    requires n < |chunks| && NumberedData(chunks) && ValidTables(t)
    requires d in t.documents && t.documents[d].experimentId == e && HoldsChunks(t, d, e, chunks[..n])
    ensures var after := AddChunk(t, d, chunks[n]);
            && ValidTables(after) && OthersKept(t, after, e) && OnlyChunksChanged(t, after)
            && HoldsChunks(after, d, e, chunks[..n + 1])
  {
    assert t.nextId !in t.chunks && UniqueChunks(t.chunks);
    hide ValidTables, HoldsChunks, UniqueChunks, OtherMetrics, OtherDocuments, OtherChunks, OtherExperiments, ChunksOf,
      NumberedData, SameChunk;
    IndexIsFree(t, d, e, chunks, n);
    InsertChunk(t.chunks, t.documents, t.nextId, d, e, chunks[n]);
    AddChunkHolds(t, d, e, chunks, n);
    ValidWithChunk(t, d, chunks[n]);
  }

  lemma {:induction false} AddChunksKeeps(t: Tables, d: nat, e: nat, chunks: seq<ChunkData>, n: nat)
    requires n <= |chunks| && NumberedData(chunks) && ValidTables(t)
    requires d in t.documents && t.documents[d].experimentId == e && HoldsChunks(t, d, e, [])
    ensures var after := AddChunks(t, d, chunks[..n]);
            && ValidTables(after) && OthersKept(t, after, e) && OnlyChunksChanged(t, after)
            && HoldsChunks(after, d, e, chunks[..n])
  {
    if n == 0 {
      assert chunks[..0] == [];
    } else {
      AddChunksKeeps(t, d, e, chunks, n - 1);
      assert chunks[..n][..n - 1] == chunks[..n - 1];
      AddChunkKeeps(AddChunks(t, d, chunks[..n - 1]), d, e, chunks, n - 1);
      hide ValidTables, HoldsChunks, AddChunk, NumberedData, OtherMetrics, OtherDocuments, OtherChunks,
        OtherExperiments;
    }
  }

  // ---------------------------------------------------------------- the transaction

  /** `select(Experiment).where(Experiment.name == name)`; the name is unique. */
  ghost predicate Finds(t: Tables, name: string, found: Option<nat>) {
    match found
    case Some(e) => e in t.experiments && t.experiments[e].name == name
    case None => forall e :: e in t.experiments ==> t.experiments[e].name != name
  }

  /** The experiment row is inserted, or overwritten with its evidence deleted. */
  function Prepared(t: Tables, row: ExperimentRow, found: Option<nat>): (Tables, nat) {
    match found
    case None => (AddExperiment(t, row), t.nextId)
    case Some(e) => (DeleteMetrics(DeleteDocuments(SetExperiment(t, e, row), e), e), e)
  }

  /** Metrics, the document and its chunks are inserted. */
  function Filled(t: Tables, e: nat, input: ExperimentInput): Tables {
    var withMetrics := AddMetrics(t, e, input.metrics);
    var d := withMetrics.nextId;
    AddChunks(DeleteChunks(AddDocument(withMetrics, e, DocumentOf(input)), d), d, ReportChunkData(input.report))
  }

  function Ingested(t: Tables, input: ExperimentInput, found: Option<nat>): Tables {
    var (prepared, e) := Prepared(t, ExperimentOf(input.metadata), found);
    Filled(prepared, e, input)
  }

  lemma PreparedKeeps(t: Tables, row: ExperimentRow, found: Option<nat>)
    requires ValidTables(t) && Finds(t, row.name, found)
    ensures var (after, e) := Prepared(t, row, found);
            && ValidTables(after) && e in after.experiments && after.experiments[e] == row
            && OthersKept(t, after, e) && NoEvidence(after, e)
            && (found.Some? ==> e == found.value) && (found.None? ==> e !in t.experiments)
  {
    match found
    case None =>
      var after := AddExperiment(t, row);
      assert OtherExperiments(after.experiments, t.nextId) == OtherExperiments(t.experiments, t.nextId);
      assert OtherDocuments(t.documents, t.nextId) == t.documents;
      hide UniqueMetrics, UniqueDocuments, UniqueChunks, OtherMetrics, OtherDocuments, OtherChunks;
    case Some(e) =>
      var renamed := SetExperiment(t, e, row);
      RenamingKeeps(t, e, row);
      DeletionKeeps(renamed, e);
      hide *;
  }

  lemma RenamingKeeps(t: Tables, e: nat, row: ExperimentRow)
    requires ValidTables(t) && e in t.experiments && t.experiments[e].name == row.name
    ensures var after := SetExperiment(t, e, row);
            ValidTables(after) && OthersKept(t, after, e)
  {
    var after := SetExperiment(t, e, row);
    assert OtherExperiments(after.experiments, e) == OtherExperiments(t.experiments, e);
    hide UniqueMetrics, UniqueDocuments, UniqueChunks, OtherMetrics, OtherDocuments, OtherChunks;
  }

  lemma ValidWithDocument(t: Tables, e: nat, data: DocumentData)
    requires ValidTables(t) && e in t.experiments && UniqueDocuments(t.documents[t.nextId := DocumentRow(e, data)])
    ensures ValidTables(AddDocument(t, e, data))
  {
    hide UniqueMetrics, UniqueNames, UniqueDocuments, UniqueChunks;
  }

  /** The new document is the experiment's only one and has no chunks yet: deleting them does nothing. */
  lemma AddDocumentKeeps(t: Tables, e: nat, data: DocumentData)
    requires ValidTables(t) && e in t.experiments && forall d :: d in t.documents ==> t.documents[d].experimentId != e
    ensures var after := AddDocument(t, e, data);
            && ValidTables(after) && OthersKept(t, after, e)
            && DocumentsOf(after.documents, e) == {data} && after.metrics == t.metrics && after.experiments == t.experiments
            && t.nextId in after.documents && after.documents[t.nextId].experimentId == e
            && DeleteChunks(after, t.nextId) == after && HoldsChunks(after, t.nextId, e, [])
  {
    var after := AddDocument(t, e, data);
    var d := t.nextId;
    InsertDocument(t.documents, d, e, data);
    NoChunksOfNewDocument(t, e, data);
    assert DeleteChunks(after, d).chunks == after.chunks;
    assert OtherChunks(after.chunks, after.documents, e) == OtherChunks(t.chunks, t.documents, e) by {
      assert OtherDocuments(after.documents, e) == OtherDocuments(t.documents, e);
    }
    hide UniqueMetrics, UniqueNames, UniqueDocuments, UniqueChunks, OtherMetrics, OtherDocuments, OtherChunks,
      OtherExperiments, DocumentsOf, ChunksOf, HoldsChunks;
    ValidWithDocument(t, e, data);
    hide ValidTables;
  }

  lemma NoChunksOfNewDocument(t: Tables, e: nat, data: DocumentData)
    requires ForeignKeys(t) && FreshIds(t) && forall d :: d in t.documents ==> t.documents[d].experimentId != e
    ensures HoldsChunks(AddDocument(t, e, data), t.nextId, e, [])
    ensures forall c :: c in t.chunks ==> t.chunks[c].documentId != t.nextId
  {
    assert ChunkSet([]) == {};
  }

  lemma ReportIsNumbered(report: string)
    ensures NumberedData(ReportChunkData(report))
  {
    ProgressiveReportReturns(report, TARGET, OVERLAP);
    var pieces := ReportIsCovered(report, TARGET, OVERLAP);
    hide ReportChunks, SectionsOf, GroupLines, SplitLines, FreshInk, Ink;
  }

  lemma FilledKeeps(t: Tables, e: nat, input: ExperimentInput)
    requires ValidTables(t) && e in t.experiments && NoEvidence(t, e) && DistinctStorageNames(input.metrics)
    ensures var after := Filled(t, e, input);
            && ValidTables(after) && OthersKept(t, after, e) && after.experiments == t.experiments
            && MetricsOf(after.metrics, e) == Stored(input.metrics)
            && DocumentsOf(after.documents, e) == {DocumentOf(input)}
            && ChunksOf(after.chunks, after.documents, e) == ChunkSet(ReportChunkData(input.report))
  {
    hide ValidTables, DistinctStorageNames, OtherMetrics, OtherDocuments, OtherChunks, OtherExperiments, Stored,
      ChunkSet, MetricsOf, DocumentsOf, ChunksOf, NumberedData, ReportChunkData, DocumentOf, AddMetrics, AddDocument,
      AddChunks, DeleteChunks;
    var metrics, chunks := input.metrics, ReportChunkData(input.report);
    assert metrics[..|metrics|] == metrics && chunks[..|chunks|] == chunks;
    AddMetricsKeeps(t, e, metrics, |metrics|);
    var withMetrics := AddMetrics(t, e, metrics);
    AddDocumentKeeps(withMetrics, e, DocumentOf(input));
    var withDocument := AddDocument(withMetrics, e, DocumentOf(input));
    ReportIsNumbered(input.report);
    AddChunksKeeps(withDocument, withMetrics.nextId, e, chunks, |chunks|);
  }

  /**
   One ingestion, into any valid tables: no constraint is violated, the experiment afterwards holds
   exactly what the input says, an existing experiment keeps its id, and no other row changes.
   */
  lemma IngestionReplaces(t: Tables, input: ExperimentInput, found: Option<nat>)
    requires ValidTables(t) && Finds(t, input.metadata.name, found) && DistinctStorageNames(input.metrics)
    ensures var after, e := Ingested(t, input, found), Prepared(t, ExperimentOf(input.metadata), found).1;
            && ValidTables(after) && e in after.experiments && ContentsOf(after, e) == Expected(input) && OthersKept(t, after, e)
            && (found.Some? ==> e == found.value) && (found.None? ==> e !in t.experiments)
  {
    hide ValidTables, DistinctStorageNames, OtherMetrics, OtherDocuments, OtherChunks, OtherExperiments, Stored,
      ChunkSet, MetricsOf, DocumentsOf, ChunksOf, ReportChunkData, DocumentOf, Prepared, Filled, NoEvidence;
    var row := ExperimentOf(input.metadata);
    PreparedKeeps(t, row, found);
    var (prepared, e) := Prepared(t, row, found);
    FilledKeeps(prepared, e, input);
  }

  // ---------------------------------------------------------------- any sequence of ingestions

  ghost function Names(t: Tables): set<string> { set e | e in t.experiments :: t.experiments[e].name }

  ghost function Lookup(t: Tables, name: string): (found: Option<nat>)
    ensures Finds(t, name, found)
  {
    if e :| e in t.experiments && t.experiments[e].name == name then Some(e) else None
  }

  /** The database as its users see it: contents by experiment name. */
  ghost function View(t: Tables): map<string, Contents> {
    map name | name in Names(t) && Lookup(t, name).Some? :: ContentsOf(t, Lookup(t, name).value)
  }

  lemma ViewAt(t: Tables, e: nat)
    requires UniqueNames(t.experiments) && e in t.experiments
    ensures t.experiments[e].name in View(t) && View(t)[t.experiments[e].name] == ContentsOf(t, e)
  {
    var found := Lookup(t, t.experiments[e].name);
    assert found == Some(e);
  }

  lemma ViewIsOfExperiments(t: Tables, name: string)
    requires name in View(t)
    ensures exists e :: e in t.experiments && t.experiments[e].name == name
  {
  }

  /** The lookup's answer is determined: names are unique. */
  lemma FindsIsLookup(t: Tables, name: string, found: Option<nat>)
    requires UniqueNames(t.experiments) && Finds(t, name, found)
    ensures found == Lookup(t, name)
  {
  }

  ghost function Ingest(t: Tables, input: ExperimentInput): Tables {
    Ingested(t, input, Lookup(t, input.metadata.name))
  }

  ghost function IngestAll(t: Tables, inputs: seq<ExperimentInput>): Tables {
    if inputs == [] then t else Ingest(IngestAll(t, inputs[..|inputs| - 1]), inputs[|inputs| - 1])
  }

  ghost function Replay(view: map<string, Contents>, inputs: seq<ExperimentInput>): map<string, Contents> {
    if inputs == [] then view
    else
      var last := inputs[|inputs| - 1];
      Replay(view, inputs[..|inputs| - 1])[last.metadata.name := Expected(last)]
  }

  lemma OtherNameKept(t: Tables, after: Tables, e: nat, other: string)
    requires ValidTables(t) && ValidTables(after) && OthersKept(t, after, e) && e in after.experiments
    requires after.experiments[e].name != other && (e in t.experiments ==> t.experiments[e].name != other)
    ensures other in View(after) <==> other in View(t)
    ensures other in View(t) ==> View(after)[other] == View(t)[other]
  {
    hide ForeignKeys, FreshIds, UniqueMetrics, UniqueDocuments, UniqueChunks, ContentsOf, OtherMetrics,
      OtherDocuments, OtherChunks, View;
    if other in View(t) {
      ViewIsOfExperiments(t, other);
      var x :| x in t.experiments && t.experiments[x].name == other;
      ViewAt(t, x);
      assert x in OtherExperiments(t.experiments, e);
      OthersContents(t, after, e, x);
      ViewAt(after, x);
      assert after.experiments[x] == OtherExperiments(after.experiments, e)[x];
    }
    if other in View(after) {
      ViewIsOfExperiments(after, other);
      var x :| x in after.experiments && after.experiments[x].name == other;
      assert x in OtherExperiments(after.experiments, e);
      ViewAt(t, x);
    }
  }

  /** Seen from outside, an ingestion sets the contents of one name and nothing else; no id changes. */
  lemma IngestionSetsOneName(t: Tables, input: ExperimentInput)
    requires ValidTables(t) && DistinctStorageNames(input.metrics)
    ensures var after := Ingest(t, input);
            && ValidTables(after) && View(after) == View(t)[input.metadata.name := Expected(input)]
            && forall e :: e in t.experiments ==> e in after.experiments && after.experiments[e].name == t.experiments[e].name
  {
    var name, row, found := input.metadata.name, ExperimentOf(input.metadata), Lookup(t, input.metadata.name);
    IngestionReplaces(t, input, found);
    var after, e := Ingested(t, input, found), Prepared(t, row, found).1;
    hide Ingested, Prepared, Expected, DistinctStorageNames, ValidTables, View, OtherMetrics, OtherDocuments,
      OtherChunks;
    ViewAfter(t, after, e, input, found);
  }

  lemma NamesStay(t: Tables, after: Tables, e: nat)
    requires OthersKept(t, after, e) && e in after.experiments
    requires e in t.experiments ==> after.experiments[e].name == t.experiments[e].name
    ensures forall x :: x in t.experiments ==> x in after.experiments && after.experiments[x].name == t.experiments[x].name
  {
    hide OtherMetrics, OtherDocuments, OtherChunks;
    forall x | x in t.experiments ensures x in after.experiments && after.experiments[x].name == t.experiments[x].name {
      if x != e {
        assert x in OtherExperiments(t.experiments, e);
        assert after.experiments[x] == OtherExperiments(after.experiments, e)[x];
      }
    }
  }

  lemma ViewAfter(t: Tables, after: Tables, e: nat, input: ExperimentInput, found: Option<nat>)
    requires ValidTables(t) && ValidTables(after) && OthersKept(t, after, e) && e in after.experiments
    requires ContentsOf(after, e) == Expected(input) && Finds(t, input.metadata.name, found)
    requires (found.Some? ==> e == found.value) && (found.None? ==> e !in t.experiments)
    ensures View(after) == View(t)[input.metadata.name := Expected(input)]
    ensures forall x :: x in t.experiments ==> x in after.experiments && after.experiments[x].name == t.experiments[x].name
  {
    hide OthersKept, ValidTables, View;
    var name := input.metadata.name;
    assert after.experiments[e].name == name;
    assert UniqueNames(after.experiments) by { AreUnique(after); }
    hide Expected, ContentsOf;
    NamesStay(t, after, e);
    ViewAt(after, e);
    forall other | other != name
      ensures other in View(after) <==> other in View(t)
      ensures other in View(t) ==> View(after)[other] == View(t)[other]
    {
      OtherNameKept(t, after, e, other);
    }
    assert View(after) == View(t)[name := Expected(input)];
  }

  lemma AreUnique(t: Tables)
    requires ValidTables(t)
    ensures UniqueNames(t.experiments)
  {
  }

  /**
   Over any sequence of ingestions no constraint is ever violated, the database shows for every name
   exactly what was ingested last under it, and no experiment ever changes its id.
   */
  lemma {:induction false} AnySequenceOfIngestions(t: Tables, inputs: seq<ExperimentInput>)
    requires ValidTables(t) && forall input :: input in inputs ==> DistinctStorageNames(input.metrics)
    ensures var after := IngestAll(t, inputs);
            && ValidTables(after) && View(after) == Replay(View(t), inputs)
            && forall e :: e in t.experiments ==> e in after.experiments && after.experiments[e].name == t.experiments[e].name
  {
    hide ValidTables, DistinctStorageNames, View, Ingest, Expected;
    if inputs != [] {
      var n := |inputs| - 1;
      AnySequenceOfIngestions(t, inputs[..n]);
      IngestionSetsOneName(IngestAll(t, inputs[..n]), inputs[n]);
    }
  }

  /** What the database shows for a name is the last input under it. */
  lemma {:induction false} LastInputWins(view: map<string, Contents>, inputs: seq<ExperimentInput>, i: nat)
    requires i < |inputs| && forall j :: i < j < |inputs| ==> inputs[j].metadata.name != inputs[i].metadata.name
    ensures inputs[i].metadata.name in Replay(view, inputs)
    ensures Replay(view, inputs)[inputs[i].metadata.name] == Expected(inputs[i])
  {
    hide Expected;
    if i < |inputs| - 1 {
      assert inputs[|inputs| - 1].metadata.name != inputs[i].metadata.name;
      LastInputWins(view, inputs[..|inputs| - 1], i);
    }
  }

  /** After any sequence of ingestions the last input under a name is what one experiment holds. */
  lemma LastInputIsHeld(t: Tables, inputs: seq<ExperimentInput>, i: nat) returns (e: nat)
    requires ValidTables(t) && forall input :: input in inputs ==> DistinctStorageNames(input.metrics)
    requires i < |inputs| && forall j :: i < j < |inputs| ==> inputs[j].metadata.name != inputs[i].metadata.name
    ensures e in IngestAll(t, inputs).experiments && ContentsOf(IngestAll(t, inputs), e) == Expected(inputs[i])
  {
    hide ValidTables, DistinctStorageNames, Expected, IngestAll, Replay, ContentsOf, Lookup;
    AnySequenceOfIngestions(t, inputs);
    LastInputWins(View(t), inputs, i);
    var after, name := IngestAll(t, inputs), inputs[i].metadata.name;
    assert name in View(after) && View(after)[name] == Expected(inputs[i]);
    e := Lookup(after, name).value;
  }

  /** Ingesting the same input again shows the same contents. */
  lemma IngestionIsIdempotent(t: Tables, input: ExperimentInput)
    requires ValidTables(t) && DistinctStorageNames(input.metrics)
    ensures View(Ingest(Ingest(t, input), input)) == View(Ingest(t, input))
  {
    IngestionSetsOneName(t, input);
    hide ValidTables, DistinctStorageNames, View, Ingest, Expected;
    IngestionSetsOneName(Ingest(t, input), input);
  }

  /** An ingested experiment has exactly one document row. */
  lemma ExactlyOneDocument(t: Tables, e: nat, input: ExperimentInput) returns (d: nat)
    requires ValidTables(t) && e in t.experiments && ContentsOf(t, e) == Expected(input)
    ensures d in t.documents && t.documents[d] == DocumentRow(e, DocumentOf(input))
    ensures forall x :: x in t.documents && t.documents[x].experimentId == e ==> x == d
  {
    hide ForeignKeys, FreshIds, UniqueNames, UniqueMetrics, UniqueChunks, MetricsOf, ChunksOf, Stored, ChunkSet,
      DocumentOf, ReportChunkData;
    assert DocumentOf(input) in DocumentsOf(t.documents, e);
    d :| d in t.documents && t.documents[d].experimentId == e && t.documents[d].data == DocumentOf(input);
    forall x | x in t.documents && t.documents[x].experimentId == e ensures x == d {
      assert t.documents[x].data in DocumentsOf(t.documents, e);
      assert SameDocument(t.documents[x], t.documents[d]);
    }
  }

  /** The rows of an ingested experiment hold the metadata, the report and the report's title under their own columns. */
  lemma IngestedRows(t: Tables, e: nat, input: ExperimentInput)
    requires e in t.experiments && ContentsOf(t, e) == Expected(input)
    ensures var row := t.experiments[e];
            && row.name == input.metadata.name && row.description == input.metadata.hypothesis
            && row.status == input.metadata.status && row.config == input.metadata
    ensures forall d :: d in t.documents && t.documents[d].experimentId == e ==>
              && t.documents[d].data.sourceUri == input.reportPath && t.documents[d].data.content == input.report
              && t.documents[d].data.title == TitleOf(SplitLines(input.report), input.metadata.name)
    ensures forall m :: m in t.metrics && t.metrics[m].experimentId == e ==>
              exists metric :: metric in input.metrics && t.metrics[m].data.name == metric.metricName + ":" + metric.variant
                && t.metrics[m].data.value == metric.value
  {
    hide ChunksOf, ChunkSet, ReportChunkData, TitleOf, SplitLines;
    forall d | d in t.documents && t.documents[d].experimentId == e ensures t.documents[d].data == DocumentOf(input) {
      assert t.documents[d].data in DocumentsOf(t.documents, e);
    }
    forall m | m in t.metrics && t.metrics[m].experimentId == e
      ensures exists metric :: metric in input.metrics && t.metrics[m].data == StoreRow(metric)
    {
      assert t.metrics[m].data in MetricsOf(t.metrics, e);
      assert t.metrics[m].data in Stored(input.metrics);
    }
  }

  // ---------------------------------------------------------------- reading back

  /** The rows of an ingested experiment, in whatever order the database returns them, are those of its metrics. */
  lemma RowsOfIngested(t: Tables, e: nat, input: ExperimentInput, rows: seq<StoredRow>)
    requires e in t.experiments && ContentsOf(t, e) == Expected(input)
    requires forall row :: row in rows <==> row in MetricsOf(t.metrics, e)
    ensures RowsFor(rows, input.metrics)
  {
    hide MetricsOf, DocumentsOf, ChunksOf, ChunkSet, ReportChunkData, DocumentOf, StoreRow;
    assert MetricsOf(t.metrics, e) == Stored(input.metrics);
    forall row ensures row in rows <==> exists k :: 0 <= k < |input.metrics| && row == StoreRow(input.metrics[k]) {
      if row in Stored(input.metrics) {
        var m :| m in input.metrics && row == StoreRow(m);
      }
      if k :| 0 <= k < |input.metrics| && row == StoreRow(input.metrics[k]) {
        assert input.metrics[k] in input.metrics;
      }
    }
  }

  /** An ingested metric is found again with the ingested values if and only if its own name has no colon. */
  lemma IngestedMetricsAreReadBack(t: Tables, e: nat, input: ExperimentInput, rows: seq<StoredRow>, i: nat)
    requires e in t.experiments && ContentsOf(t, e) == Expected(input) && i < |input.metrics|
    requires DistinctStorageNames(input.metrics)
    requires forall row :: row in rows <==> row in MetricsOf(t.metrics, e)
    ensures LastMatch(LoadRows(rows), input.metrics[i].metricName, input.metrics[i].variant) == Some(input.metrics[i])
       <==> ColonFree(input.metrics[i].metricName)
  {
    hide *;
    RowsOfIngested(t, e, input, rows);
    ReadBackValue(input.metrics, rows, i);
  }

  /**
   From the file to the lookup: a row of an accepted file, once ingested, is found under its name and variant with the
   number, lift and p-value of its own cells if and only if its name has no colon.
   */
  lemma CsvRowIsReadBack(t: Tables, e: nat, input: ExperimentInput, stored: seq<StoredRow>, rows: seq<CsvRow>,
                         parse: string -> Option<real>, i: nat)
    requires e in t.experiments && ContentsOf(t, e) == Expected(input) && DistinctStorageNames(input.metrics)
    requires forall row :: row in stored <==> row in MetricsOf(t.metrics, e)
    requires AllReadFrom(input.metrics, rows, parse) && i < |rows|
    ensures var name, variant := Strip(rows[i].metricName), Strip(rows[i].variant);
            (exists m :: LastMatch(LoadRows(stored), name, variant) == Some(m) && ReadFrom(m, rows[i], parse))
            <==> ColonFree(name)
  {
    assert ReadFrom(input.metrics[i], rows[i], parse);
    var name, variant := Strip(rows[i].metricName), Strip(rows[i].variant);
    hide ContentsOf, Expected, MetricsOf, Strip, LoadRows, LastMatch, ColonFree, DistinctStorageNames;
    IngestedMetricsAreReadBack(t, e, input, stored, i);
    forall m | LastMatch(LoadRows(stored), name, variant) == Some(m) && ReadFrom(m, rows[i], parse) ensures m == input.metrics[i] {}
  }

  /**
   The chunk rows of an ingested experiment, in index order and each without the characters it
   repeats, spell out the non-whitespace characters of its report.
   */
  lemma IngestedReportIsCovered(t: Tables, e: nat, input: ExperimentInput) returns (pieces: seq<Piece>)
    requires e in t.experiments && ContentsOf(t, e) == Expected(input)
    ensures forall c :: c in ChunksOf(t.chunks, t.documents, e) ==> c.chunkIndex < |pieces| && c.text == pieces[c.chunkIndex].text
    ensures forall k :: 0 <= k < |pieces| ==>
              ChunkData(k, pieces[k].text, TokenCount(pieces[k].text)) in ChunksOf(t.chunks, t.documents, e)
    ensures Sized(pieces, TARGET, OVERLAP) && FreshInk(pieces) == Ink(input.report)
  {
    ProgressiveReportReturns(input.report, TARGET, OVERLAP);
    pieces := ReportIsCovered(input.report, TARGET, OVERLAP);
    var chunks := ReportChunks(SectionsOf(GroupLines(SplitLines(input.report))), TARGET, OVERLAP);
    TokensCounted(SectionsOf(GroupLines(SplitLines(input.report))), TARGET, OVERLAP);
    assert ChunkRowsOf(chunks) == ReportChunkData(input.report);
    hide *;
    PiecesAreStored(chunks, pieces);
    StoredChunks(t, e, input);
  }

  lemma StoredChunks(t: Tables, e: nat, input: ExperimentInput)
    requires e in t.experiments && ContentsOf(t, e) == Expected(input)
    ensures ChunksOf(t.chunks, t.documents, e) == ChunkSet(ReportChunkData(input.report))
  {
    hide ChunksOf, ReportChunkData, ChunkSet, DocumentsOf, MetricsOf, Stored, DocumentOf;
  }

  lemma PiecesAreStored(chunks: seq<MarkdownChunk>, pieces: seq<Piece>)
    requires HaveTexts(pieces, ChunkTexts(chunks)) && Numbered(chunks)
    requires forall c :: c in chunks ==> c.tokenCount == TokenCount(c.text)
    ensures forall c :: c in ChunkSet(ChunkRowsOf(chunks)) ==> c.chunkIndex < |pieces| && c.text == pieces[c.chunkIndex].text
    ensures forall k :: 0 <= k < |pieces| ==>
              ChunkData(k, pieces[k].text, TokenCount(pieces[k].text)) in ChunkSet(ChunkRowsOf(chunks))
  {
    hide TokenCount;
    var data := ChunkRowsOf(chunks);
    forall k | 0 <= k < |pieces|
      ensures data[k] == ChunkData(k, pieces[k].text, TokenCount(pieces[k].text)) && data[k] in ChunkSet(data)
    {
      assert pieces[k].text == ChunkTexts(chunks)[k] && chunks[k] in chunks;
      assert data[k] in data;
    }
    forall c | c in ChunkSet(data) ensures c.chunkIndex < |pieces| && c.text == pieces[c.chunkIndex].text {
      var k :| 0 <= k < |data| && data[k] == c;
    }
  }

  lemma {:induction false} TokensCounted(sections: seq<MarkdownSection>, target: nat, overlap: nat)
    requires target > 0
    ensures forall c :: c in ReportChunks(sections, target, overlap) ==> c.tokenCount == TokenCount(c.text)
  {
    hide TokenCount, SectionTexts;
    if sections != [] {
      TokensCounted(sections[..|sections| - 1], target, overlap);
    }
  }

  // ---------------------------------------------------------------- the session

  datatype IngestionResult = IngestionResult(experimentName: string, metricsInserted: nat, chunksInserted: nat, replacedExisting: bool)

  /** The database behind a session. Each statement demands what the schema's constraints demand of it. */
  class Session {
    var experiments: map<nat, ExperimentRow>
    var metrics: map<nat, MetricRow>
    var documents: map<nat, DocumentRow>
    var chunks: map<nat, ChunkRow>
    var nextId: nat

    ghost function State(): Tables
      reads this
    {
      Tables(experiments, metrics, documents, chunks, nextId)
    }

    constructor ()
      ensures ValidTables(State()) && State() == Tables(map[], map[], map[], map[], 0)
    {
      experiments, metrics, documents, chunks, nextId := map[], map[], map[], map[], 0;
    }

    method FindExperiment(name: string) returns (found: Option<nat>)
      ensures Finds(State(), name, found)
    {
      if e :| e in experiments && experiments[e].name == name {
        return Some(e);
      }
      return None;
    }

    method InsertExperiment(row: ExperimentRow) returns (e: nat)
      requires forall x :: x in experiments ==> experiments[x].name != row.name
      modifies this
      ensures State() == AddExperiment(old(State()), row) && e == old(nextId)
    {
      e := nextId;
      experiments, nextId := experiments[e := row], nextId + 1;
    }

    method UpdateExperiment(e: nat, row: ExperimentRow)
      requires e in experiments && experiments[e].name == row.name
      modifies this
      ensures State() == SetExperiment(old(State()), e, row)
    {
      experiments := experiments[e := row];
    }

    method DeleteEvidence(e: nat)
      modifies this
      ensures State() == DeleteMetrics(DeleteDocuments(old(State()), e), e)
    {
      documents := map d | d in documents && documents[d].experimentId != e :: documents[d];
      chunks := map c | c in chunks && chunks[c].documentId in documents :: chunks[c];
      metrics := map m | m in metrics && metrics[m].experimentId != e :: metrics[m];
    }

    method InsertMetricRow(e: nat, data: StoredRow)
      requires e in experiments && forall m :: m in metrics ==> !SameMetric(metrics[m], MetricRow(e, data))
      modifies this
      ensures State() == AddMetric(old(State()), e, data)
    {
      metrics, nextId := metrics[nextId := MetricRow(e, data)], nextId + 1;
    }

    method InsertDocumentRow(e: nat, data: DocumentData) returns (d: nat)
      requires e in experiments && forall x :: x in documents ==> !SameDocument(documents[x], DocumentRow(e, data))
      modifies this
      ensures State() == AddDocument(old(State()), e, data) && d == old(nextId)
    {
      d := nextId;
      documents, nextId := documents[d := DocumentRow(e, data)], nextId + 1;
    }

    method DeleteChunksOf(d: nat)
      modifies this
      ensures State() == DeleteChunks(old(State()), d)
    {
      chunks := map c | c in chunks && chunks[c].documentId != d :: chunks[c];
    }

    method InsertChunkRow(d: nat, data: ChunkData)
      requires d in documents && forall c :: c in chunks ==> !SameChunk(chunks[c], ChunkRow(d, data))
      modifies this
      ensures State() == AddChunk(old(State()), d, data)
    {
      chunks, nextId := chunks[nextId := ChunkRow(d, data)], nextId + 1;
    }

    method InsertMetrics(e: nat, inputs: seq<Metric>)
      requires ValidTables(State()) && e in experiments && NoEvidence(State(), e) && DistinctStorageNames(inputs)
      modifies this
      ensures State() == AddMetrics(old(State()), e, inputs)
    {
      hide ValidTables, DistinctStorageNames, OthersKept, HoldsMetrics, NoEvidence, StoreRow;
      for i := 0 to |inputs|
        invariant State() == AddMetrics(old(State()), e, inputs[..i])
      {
        AddMetricsKeeps(old(State()), e, inputs, i);
        NameIsFree(State(), e, inputs, i);
        InsertMetricRow(e, StoreRow(inputs[i]));
        assert inputs[..i + 1][..i] == inputs[..i];
      }
      assert inputs[..|inputs|] == inputs;
    }

    method InsertChunks(d: nat, ghost e: nat, data: seq<ChunkData>)
      requires ValidTables(State()) && NumberedData(data)
      requires d in documents && documents[d].experimentId == e && HoldsChunks(State(), d, e, [])
      modifies this
      ensures State() == AddChunks(old(State()), d, data)
    {
      hide ValidTables, NumberedData, OthersKept, HoldsChunks;
      for i := 0 to |data|
        invariant State() == AddChunks(old(State()), d, data[..i])
      {
        AddChunksKeeps(old(State()), d, e, data, i);
        IndexIsFree(State(), d, e, data, i);
        InsertChunkRow(d, data[i]);
        assert data[..i + 1][..i] == data[..i];
      }
      assert data[..|data|] == data;
    }

    /** Chunks of the report as rows; `chunk_markdown_report` with its defaults. */
    method ChunkRows(report: string) returns (data: seq<ChunkData>)
      ensures data == ReportChunkData(report)
    {
      hide ReportChunks, SectionsOf, GroupLines, SplitLines;
      ProgressiveReportReturns(report, TARGET, OVERLAP);
      var result := ChunkMarkdownReport(report, TARGET, OVERLAP);
      data := ChunkRowsOf(result.value);
    }

    /** The transaction of `ingest_experiment_dir` for an input that was read without errors. */
    method IngestExperiment(input: ExperimentInput) returns (result: IngestionResult)
      requires ValidTables(State()) && DistinctStorageNames(input.metrics)
      modifies this
      ensures State() == Ingest(old(State()), input)
      ensures ValidTables(State()) && View(State()) == View(old(State()))[input.metadata.name := Expected(input)]
      ensures result == IngestionResult(input.metadata.name, |input.metrics|, |ReportChunkData(input.report)|,
                                        input.metadata.name in old(Names(State())))
    {
      hide View, Expected, DistinctStorageNames, ReportChunkData, MetricsOf, DocumentsOf, ChunksOf, OthersKept,
        UniqueMetrics, UniqueDocuments, UniqueChunks, ForeignKeys, FreshIds;
      ghost var before := State();
      var data := ChunkRows(input.report);
      ReportIsNumbered(input.report);
      var row := ExperimentOf(input.metadata);
      var found := FindExperiment(row.name);
      FindsIsLookup(before, row.name, found);
      IngestionSetsOneName(before, input);
      PreparedKeeps(before, row, found);
      var e := Prepare(row, found);
      hide ValidTables;
      InsertMetrics(e, input.metrics);
      ghost var withMetrics := State();
      var title := DocumentTitle(input.report, input.metadata.name);
      assert input.metrics[..|input.metrics|] == input.metrics;
      AddMetricsKeeps(Prepared(before, row, found).0, e, input.metrics, |input.metrics|);
      AddDocumentKeeps(withMetrics, e, DocumentOf(input));
      var d := InsertDocumentRow(e, DocumentData(input.reportPath, title, input.report));
      DeleteChunksOf(d);
      InsertChunks(d, e, data);
      result := IngestionResult(input.metadata.name, |input.metrics|, |data|, found.Some?);
    }

    method Prepare(row: ExperimentRow, found: Option<nat>) returns (e: nat)
      requires Finds(State(), row.name, found)
      modifies this
      ensures (State(), e) == Prepared(old(State()), row, found)
    {
      match found
      case None =>
        e := InsertExperiment(row);
      case Some(id) =>
        e := id;
        UpdateExperiment(e, row);
        DeleteEvidence(e);
    }
  }
}
