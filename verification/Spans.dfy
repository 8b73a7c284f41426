/** Buffered spans and the current-span variable (packages/observability/base.py). */
module Spans {
  import opened Text

  datatype Status = Pending | Completed | Errored

  datatype ErrorInfo = ErrorInfo(kind: string, message: string)

  const TRACE_KEY := "experimentos_trace_id"

  /** `BufferedSpanRecord`; a record's name, trace and parent never change after it was created. */
  class SpanRecord {
    const name: string
    const traceId: Option<string>
    const parent: SpanRecord?
    var outputs: map<string, string>
    var metadata: map<string, string>
    var tags: seq<string>
    var error: Option<ErrorInfo>
    var status: Status
    var ended: bool
    var children: seq<SpanRecord>

    constructor (name: string, traceId: Option<string>, parent: SpanRecord?, metadata: map<string, string>,
                 tags: seq<string>)
      ensures this.name == name && this.traceId == traceId && this.parent == parent && this.metadata == metadata
      ensures this.tags == tags && outputs == map[] && error == None && status == Pending && !ended && children == []
    {
      this.name, this.traceId, this.parent, this.metadata, this.tags := name, traceId, parent, metadata, tags;
      outputs, error, status, ended, children := map[], None, Pending, false, [];
    }
  }

  // ---------------------------------------------------------------- the forest, in creation order

  /** The records created under `r`, in creation order. */
  ghost function ChildrenOf(created: seq<SpanRecord>, r: SpanRecord): seq<SpanRecord> {
    if created == [] then []
    else
      var last := created[|created| - 1];
      ChildrenOf(created[..|created| - 1], r) + (if last.parent == r then [last] else [])
  }

  /** Every record is created once, after its parent, and carries its parent's trace id. */
  ghost predicate Forest(created: seq<SpanRecord>) {
    && (forall i, j :: 0 <= i < j < |created| ==> created[i] != created[j])
    && forall i :: 0 <= i < |created| && created[i].parent != null ==>
         created[i].parent in created[..i] && created[i].traceId == created[i].parent.traceId
  }

  lemma ForestSnoc(created: seq<SpanRecord>, r: SpanRecord)
    requires Forest(created) && r !in created
    requires r.parent != null ==> r.parent in created && r.traceId == r.parent.traceId
    ensures Forest(created + [r])
  {
    var more := created + [r];
    forall i | 0 <= i < |more| && more[i].parent != null
      ensures more[i].parent in more[..i] && more[i].traceId == more[i].parent.traceId
    {
      assert more[..i] == created[..i];
      if i == |created| {
        assert more[..i] == created;
      }
    }
  }

  lemma ChildrenSnoc(created: seq<SpanRecord>, last: SpanRecord, r: SpanRecord)
    ensures ChildrenOf(created + [last], r) == ChildrenOf(created, r) + if last.parent == r then [last] else []
  {
    assert (created + [last])[..|created|] == created;
  }

  /** A record with a parent occurs exactly once among its parent's children, and among no one else's. */
  lemma {:induction false} ExactlyOneParent(created: seq<SpanRecord>, c: SpanRecord, r: SpanRecord)
    requires Forest(created)
    ensures multiset(ChildrenOf(created, r))[c] == if c in created && c.parent == r then 1 else 0
  {
    if created != [] {
      var n := |created| - 1;
      var before := created[..n];
      assert created == before + [created[n]];
      forall i | 0 <= i < n && before[i].parent != null
        ensures before[i].parent in before[..i] && before[i].traceId == before[i].parent.traceId
      {
        assert created[i].parent in created[..i] && created[..i] == before[..i];
      }
      ExactlyOneParent(before, c, r);
      assert created[n] !in before;
    }
  }

  /** The position of the root that a record hangs under. */
  ghost function RootOf(created: seq<SpanRecord>, i: nat): nat
    requires Forest(created) && i < |created|
    decreases i
  {
    if created[i].parent == null then i
    else
      var j: nat :| j < i && created[j] == created[i].parent;
      RootOf(created, j)
  }

  /** Following parents always ends, never later than it began, at a parentless record of the same trace. */
  lemma {:induction false} EveryRecordHasARoot(created: seq<SpanRecord>, i: nat)
    requires Forest(created) && i < |created|
    ensures var k := RootOf(created, i);
            k <= i && created[k].parent == null && created[k].traceId == created[i].traceId
            && (k == i <==> created[i].parent == null)
    decreases i
  {
    if created[i].parent != null {
      assert created[i].parent in created[..i];
      var j: nat :| j < i && created[j] == created[i].parent && RootOf(created, i) == RootOf(created, j);
      EveryRecordHasARoot(created, j);
    }
  }

  /** `d` is reached from `a` by going down at least one child link. */
  ghost predicate Below(created: seq<SpanRecord>, d: nat, a: nat)
    requires Forest(created) && d < |created| && a < |created|
    decreases d
  {
    created[d].parent != null
    && exists j: nat :: j < d && created[j] == created[d].parent && (j == a || Below(created, j, a))
  }

  /** No record is its own ancestor: descendants are always created later. */
  lemma {:induction false} NoCycles(created: seq<SpanRecord>, d: nat, a: nat)
    requires Forest(created) && d < |created| && a < |created| && Below(created, d, a)
    ensures a < d && created[d] != created[a] && created[d].traceId == created[a].traceId
    decreases d
  {
    var j: nat :| j < d && created[j] == created[d].parent && (j == a || Below(created, j, a));
    if j != a {
      NoCycles(created, j, a);
    }
  }

  /** The records below a root are exactly those whose parents lead to it: every record is in one tree. */
  lemma {:induction false} TreesPartition(created: seq<SpanRecord>, d: nat, root: nat)
    requires Forest(created) && d < |created| && root < |created| && created[root].parent == null
    ensures RootOf(created, d) == root <==> d == root || Below(created, d, root)
    decreases d
  {
    if created[d].parent != null {
      assert created[d].parent in created[..d];
      var j: nat :| j < d && created[j] == created[d].parent && RootOf(created, d) == RootOf(created, j);
      TreesPartition(created, j, root);
      if Below(created, d, root) {
        var k: nat :| k < d && created[k] == created[d].parent && (k == root || Below(created, k, root));
        assert created[k] == created[j] && k == j;
      }
    }
  }

  // ---------------------------------------------------------------- the tracer

  /** A provider together with the context variable that holds the current span. */
  class Tracer {
    var current: SpanRecord?
    /** The records passed to the provider's `_finish_root`, in order. */
    var emitted: seq<SpanRecord>
    ghost var created: seq<SpanRecord>

    ghost predicate Valid()
      reads this, created
    {
      && Forest(created)
      && (forall r :: r in created ==> r.children == ChildrenOf(created, r) && (r.error.Some? <==> r.status == Errored))
      && (current != null ==> current in created)
      && (forall r :: r in emitted ==> r in created && r.parent == null)
    }

    /** Between two moments records are only added, children only appended, and errors and ends never undone. */
    twostate predicate Evolved()
      reads this, created
    {
      && old(created) <= created && old(emitted) <= emitted
      && forall r :: r in old(created) ==>
           && old(r.children) <= r.children
           && (old(r.status) == Errored ==> r.status == Errored)
           && (old(r.status) == Completed ==> r.status != Pending)
           && (old(r.ended) ==> r.ended)
    }

    constructor ()
      ensures Valid() && current == null && created == [] && emitted == []
    {
      current, emitted, created := null, [], [];
    }

    /** Bookkeeping common to the two ways of starting a span: link the record to its parent. */
    method Link(record: SpanRecord)
      requires Valid() && record !in created
      requires record.children == [] && record.error == None && record.status == Pending
      requires record.parent != null ==> record.parent in created && record.traceId == record.parent.traceId
      modifies this`created, if record.parent != null then {record.parent} else {}
      ensures Valid() && Evolved() && created == old(created) + [record]
      ensures record.parent != null ==> record.parent.children == old(record.parent.children) + [record]
      ensures record.parent != null ==> unchanged(record.parent`status, record.parent`error, record.parent`outputs)
    {
      hide Forest, ChildrenOf;
      ForestSnoc(created, record);
      forall r | r in created
        ensures ChildrenOf(created + [record], r) == ChildrenOf(created, r) + if record.parent == r then [record] else []
      {
        ChildrenSnoc(created, record, r);
      }
      NoChildrenYet(created, record);
      created := created + [record];
      if record.parent != null {
        record.parent.children := record.parent.children + [record];
      }
    }

    /** `start_root_span` */
    method StartRootSpan(name: string, traceId: Option<string>, metadata: map<string, string>, tags: seq<string>)
      returns (record: SpanRecord)
      requires Valid()
      modifies this
      ensures Valid() && Evolved() && fresh(record) && created == old(created) + [record]
      ensures current == old(current) && emitted == old(emitted)
      ensures record.parent == null && record.traceId == traceId && record.status == Pending
      ensures record.metadata ==
                if traceId.Some? && traceId.value != "" && TRACE_KEY !in metadata
                then metadata[TRACE_KEY := traceId.value] else metadata
    {
      record := new SpanRecord(name, traceId, null, metadata, tags);
      if traceId.Some? && traceId.value != "" && TRACE_KEY !in record.metadata {
        record.metadata := record.metadata[TRACE_KEY := traceId.value];
      }
      Link(record);
    }

    /** `start_span`: under the given parent, or else the current span; without either it is a new root. */
    method StartSpan(name: string, parent: SpanRecord?, metadata: map<string, string>, tags: seq<string>)
      returns (record: SpanRecord)
      requires Valid() && (parent != null ==> parent in created)
      modifies this`created, if parent != null then {parent} else if current != null then {current} else {}
      ensures Valid() && Evolved() && fresh(record) && created == old(created) + [record]
      ensures record.parent == if parent != null then parent else old(current)
      ensures record.traceId == if record.parent != null then record.parent.traceId else None
      ensures parent != null ==> parent.children == old(parent.children) + [record]
      ensures parent == null && current != null ==> current.children == old(current.children) + [record]
      ensures current == old(current) && emitted == old(emitted)
    {
      hide Forest, ChildrenOf;
      var resolved := if parent != null then parent else current;
      record := new SpanRecord(name, if resolved != null then resolved.traceId else None, resolved, metadata, tags);
      Link(record);
    }

    /** Entering `activate`: the span becomes current; the token remembers the previous one. */
    method Activate(span: SpanRecord) returns (token: SpanRecord?)
      requires Valid() && span in created
      modifies this`current
      ensures Valid() && Evolved() && current == span && token == old(current)
      ensures token != null ==> token in created
    {
      token := current;
      current := span;
    }

    /** Leaving `activate`, normally or by an exception. */
    method Reset(token: SpanRecord?)
      requires Valid() && (token != null ==> token in created)
      modifies this`current
      ensures Valid() && Evolved() && current == token
    {
      current := token;
    }

    /** `record_error` */
    method RecordError(span: SpanRecord, error: ErrorInfo)
      requires Valid() && span in created
      modifies span`error, span`status
      ensures Valid() && Evolved() && span.error == Some(error) && span.status == Errored
    {
      span.error := Some(error);
      span.status := Errored;
    }

    /**
     `finish`: an error status stays, a pending one completes, and only a parentless span is handed to the
     provider; `emission` is what the provider then raises, if anything, and comes after the changes.
     */
    method Finish(span: SpanRecord, outputs: map<string, string>, emission: Option<string>) returns (raised: Option<string>)
      requires Valid() && span in created
      modifies span`outputs, span`status, span`ended, this`emitted
      ensures Valid() && Evolved() && span.ended && span.outputs == old(span.outputs) + outputs
      ensures span.status == if old(span.status) == Pending then Completed else old(span.status)
      ensures emitted == if span.parent == null then old(emitted) + [span] else old(emitted)
      ensures raised == if span.parent == null then emission else None
    {
      hide Forest, ChildrenOf;
      raised := None;
      span.outputs := span.outputs + outputs;
      if span.status == Pending {
        span.status := Completed;
      }
      span.ended := true;
      if span.parent == null {
        emitted := emitted + [span];
        raised := emission;
      }
    }
  }

  lemma {:induction false} NoChildrenYet(created: seq<SpanRecord>, r: SpanRecord)
    requires Forest(created) && r !in created
    ensures ChildrenOf(created, r) == [] && ChildrenOf(created + [r], r) == if r.parent == r then [r] else []
  {
    if ChildrenOf(created, r) != [] {
      var c := ChildrenOf(created, r)[0];
      assert c in multiset(ChildrenOf(created, r));
      ExactlyOneParent(created, c, r);
    }
    ChildrenSnoc(created, r, r);
  }

  // ---------------------------------------------------------------- whole programs

  /** What traced code does; spans are named by the order in which it started them. */
  datatype Action =
    | StartRoot(name: string, traceId: Option<string>)
    | Start(name: string, parent: Option<nat>)
    | Fail(span: nat, error: ErrorInfo)
    | End(span: nat, outputs: map<string, string>, emission: Option<string>)
    | Within(span: nat, body: seq<Action>)
    | Raise

  /** One action that starts, fails or ends a span; spans that were never started cannot be named. */
  method Perform(tracer: Tracer, action: Action, spans: seq<SpanRecord>) returns (known: seq<SpanRecord>, raised: bool)
    requires tracer.Valid() && (forall r :: r in spans ==> r in tracer.created)
    requires !action.Within? && !action.Raise?
    modifies tracer, set r | r in tracer.created
    ensures tracer.Valid() && tracer.Evolved() && tracer.current == old(tracer.current)
    ensures spans <= known && forall r :: r in known ==> r in tracer.created
    ensures forall r :: r in tracer.created && r !in old(tracer.created) ==> fresh(r)
  {
    hide Forest, ChildrenOf;
    known, raised := spans, false;
    match action {
      case StartRoot(name, traceId) =>
        var record := tracer.StartRootSpan(name, traceId, map[], []);
        known := known + [record];
      case Start(name, parent) =>
        var under: SpanRecord? := null;
        if parent.Some? && parent.value < |spans| {
          under := spans[parent.value];
        }
        var record := tracer.StartSpan(name, under, map[], []);
        known := known + [record];
      case Fail(span, error) =>
        if span < |spans| {
          tracer.RecordError(spans[span], error);
        }
      case End(span, outputs, emission) =>
        if span < |spans| {
          var failure := tracer.Finish(spans[span], outputs, emission);
          raised := failure.Some?;
        }
    }
  }

  /** `with span.activate(): body`: the token is reset on the way out, also when the body raised. */
  method Inside(tracer: Tracer, span: SpanRecord, body: seq<Action>, spans: seq<SpanRecord>)
    returns (known: seq<SpanRecord>, raised: bool)
    requires tracer.Valid() && span in tracer.created && (forall r :: r in spans ==> r in tracer.created)
    modifies tracer, set r | r in tracer.created
    ensures tracer.Valid() && tracer.Evolved() && tracer.current == old(tracer.current)
    ensures spans <= known && forall r :: r in known ==> r in tracer.created
    ensures forall r :: r in tracer.created && r !in old(tracer.created) ==> fresh(r)
    decreases body, 1
  {
    hide Forest, ChildrenOf, Tracer.Valid;
    var token := tracer.Activate(span);
    known, raised := Execute(tracer, body, spans);
    tracer.Reset(token);
  }

  /**
   Any program over spans, with nested activations and exceptions: it leaves a valid forest in which
   nothing was undone, and the span that was current before it is current again, even if it raised.
   */
  method Execute(tracer: Tracer, actions: seq<Action>, spans: seq<SpanRecord>)
    returns (known: seq<SpanRecord>, raised: bool)
    requires tracer.Valid() && (forall r :: r in spans ==> r in tracer.created)
    modifies tracer, set r | r in tracer.created
    ensures tracer.Valid() && tracer.Evolved() && tracer.current == old(tracer.current)
    ensures spans <= known && forall r :: r in known ==> r in tracer.created
    ensures forall r :: r in tracer.created && r !in old(tracer.created) ==> fresh(r)
    decreases actions, 0
  {
    hide Forest, ChildrenOf, Tracer.Valid;
    known, raised := spans, false;
    for i := 0 to |actions|
      invariant tracer.Valid() && tracer.Evolved() && tracer.current == old(tracer.current)
      invariant spans <= known && forall r :: r in known ==> r in tracer.created
      invariant forall r :: r in tracer.created && r !in old(tracer.created) ==> fresh(r)
    {
      match actions[i] {
        case Raise =>
          return known, true;
        case Within(span, body) =>
          if span < |known| {
            known, raised := Inside(tracer, known[span], body, known);
            if raised {
              return known, true;
            }
          }
        case _ =>
          known, raised := Perform(tracer, actions[i], known);
          if raised {
            return known, true;
          }
      }
    }
  }
}
