/** The preview keeps its two representations of the graph in step. */
module EditInStep {
  import opened Ordering
  import opened Seqs
  import opened Graph
  import opened ManualEdit

  ghost predicate SameEdges(a: seq<GraphEdge>, b: seq<GraphEdge>) {
    forall e :: e in a <==> e in b
  }

  ghost predicate NodesInStep(nodes: seq<CanvasNode>, workflow: map<string, GraphNode>) {
    && (forall id :: id in workflow <==> exists n | n in nodes :: n.id == id)
    && (forall n | n in nodes :: n.id in workflow && workflow[n.id].nodeType == n.nodeType)
  }

  /** Same node ids, same node types, same edges. */
  ghost predicate InStep(c: Canvas) {
    c.workflow.Some? ==>
      NodesInStep(c.nodes, c.workflow.value.nodes) && SameEdges(Wires(c.edges), c.workflow.value.edges)
  }

  predicate DistinctNodes(nodes: seq<CanvasNode>) {
    forall i, j | 0 <= i < j < |nodes| :: nodes[i].id != nodes[j].id
  }

  predicate DistinctSignatures(es: seq<GraphEdge>) {
    forall i, j | 0 <= i < j < |es| :: Signature(es[i]) != Signature(es[j])
  }

  ghost predicate Tidy(c: Canvas) {
    && DistinctNodes(c.nodes) && DistinctSignatures(Wires(c.edges))
    && (c.workflow.Some? ==> DistinctSignatures(c.workflow.value.edges))
  }

  // ----- edges -----

  lemma {:induction false} WiresFilter(edges: seq<CanvasEdge>, keep: GraphEdge -> bool)
    ensures Wires(Filter(edges, WireKept(keep))) == Filter(Wires(edges), keep)
  {
    if edges != [] {
      WiresFilter(edges[1..], keep);
      WiresTail(edges);
      var rest := Filter(edges[1..], WireKept(keep));
      assert Wires([edges[0]] + rest) == [Wire(edges[0])] + Wires(rest);
    }
  }

  lemma WiresTail(edges: seq<CanvasEdge>)
    requires edges != []
    ensures Wires(edges)[1..] == Wires(edges[1..])
  {}

  lemma WiresAdd(edges: seq<CanvasEdge>, e: GraphEdge)
    ensures Wires(AddCanvasEdge(edges, e)) == AddWire(Wires(edges), e)
  {}

  lemma AddWireDistinct(es: seq<GraphEdge>, e: GraphEdge)
    requires DistinctSignatures(es)
    ensures DistinctSignatures(AddWire(es, e))
  {
    assert forall i | 0 <= i < |es| :: es[i] in es;
  }

  lemma {:induction false} FilterDistinct(es: seq<GraphEdge>, keep: GraphEdge -> bool)
    requires DistinctSignatures(es)
    ensures DistinctSignatures(Filter(es, keep))
  {
    if es != [] {
      FilterDistinct(es[1..], keep);
      var rest := Filter(es[1..], keep);
      forall k | 0 <= k < |rest| ensures Signature(rest[k]) != Signature(es[0]) {
        assert rest[k] in es[1..];
        var j :| 0 <= j < |es[1..]| && es[1..][j] == rest[k];
        assert es[j + 1] == rest[k];
      }
    }
  }

  lemma ConnectedInStep(c: Canvas, e: GraphEdge)
    ensures InStep(c) ==> InStep(Connected(c, e))
    ensures Tidy(c) ==> Tidy(Connected(c, e))
  {
    WiresAdd(c.edges, e);
    if Tidy(c) {
      AddWireDistinct(Wires(c.edges), e);
      if c.workflow.Some? { AddWireDistinct(c.workflow.value.edges, e); }
    }
  }

  lemma KeepEdgesInStep(c: Canvas, keep: GraphEdge -> bool)
    ensures InStep(c) ==> InStep(KeepEdges(c, keep))
    ensures Tidy(c) ==> Tidy(KeepEdges(c, keep))
  {
    WiresFilter(c.edges, keep);
    if Tidy(c) {
      FilterDistinct(Wires(c.edges), keep);
      if c.workflow.Some? { FilterDistinct(c.workflow.value.edges, keep); }
    }
  }

  // ----- nodes -----

  lemma {:induction false} FilterDistinctNodes(nodes: seq<CanvasNode>, id: string)
    requires DistinctNodes(nodes)
    ensures DistinctNodes(Filter(nodes, NotNamed(id)))
  {
    if nodes != [] {
      FilterDistinctNodes(nodes[1..], id);
      var rest := Filter(nodes[1..], NotNamed(id));
      forall k | 0 <= k < |rest| ensures rest[k].id != nodes[0].id {
        assert rest[k] in nodes[1..];
        var j :| 0 <= j < |nodes[1..]| && nodes[1..][j] == rest[k];
        assert nodes[j + 1] == rest[k];
      }
    }
  }

  /** Same ids and types in the same order. */
  ghost predicate SameShape(a: seq<CanvasNode>, b: seq<CanvasNode>) {
    |a| == |b| && forall i | 0 <= i < |a| :: a[i].id == b[i].id && a[i].nodeType == b[i].nodeType
  }

  lemma SameShapeInStep(
    a: seq<CanvasNode>, b: seq<CanvasNode>, v: map<string, GraphNode>, w: map<string, GraphNode>)
    requires SameShape(a, b) && v.Keys == w.Keys && forall id | id in v :: v[id].nodeType == w[id].nodeType
    requires NodesInStep(a, v)
    ensures NodesInStep(b, w)
  {
    forall n | n in b ensures n.id in w && w[n.id].nodeType == n.nodeType {
      var i :| 0 <= i < |b| && b[i] == n;
      assert a[i] in a;
    }
    forall id ensures id in w <==> exists n | n in b :: n.id == id {
      if id in w {
        var m :| m in a && m.id == id;
        var i :| 0 <= i < |a| && a[i] == m;
        assert b[i] in b;
      }
    }
  }

  lemma ShapeKept(c: Canvas, next: Canvas)
    requires SameShape(c.nodes, next.nodes) && next.edges == c.edges
    requires c.workflow.Some? <==> next.workflow.Some?
    requires c.workflow.Some? ==>
      && next.workflow.value.edges == c.workflow.value.edges
      && next.workflow.value.nodes.Keys == c.workflow.value.nodes.Keys
      && forall id | id in c.workflow.value.nodes ::
          next.workflow.value.nodes[id].nodeType == c.workflow.value.nodes[id].nodeType
    ensures InStep(c) ==> InStep(next)
    ensures Tidy(c) ==> Tidy(next)
  {
    if InStep(c) && c.workflow.Some? {
      SameShapeInStep(c.nodes, next.nodes, c.workflow.value.nodes, next.workflow.value.nodes);
    }
  }

  lemma RemoveInStep(c: Canvas, id: string)
    ensures InStep(c) ==> InStep(DoRemove(c, id))
    ensures Tidy(c) ==> Tidy(DoRemove(c, id))
  {
    KeepEdgesInStep(c, Avoiding({id}));
    if DistinctNodes(c.nodes) { FilterDistinctNodes(c.nodes, id); }
    if InStep(c) && c.workflow.Some? {
      RemovedNodesInStep(c.nodes, c.workflow.value.nodes, id);
    }
  }

  lemma RemovedNodesInStep(nodes: seq<CanvasNode>, workflow: map<string, GraphNode>, id: string)
    requires NodesInStep(nodes, workflow)
    ensures NodesInStep(Filter(nodes, NotNamed(id)), workflow - {id})
  {
    var kept := Filter(nodes, NotNamed(id));
    forall x ensures (x in workflow - {id}) <==> exists n | n in kept :: n.id == x {
      if x in workflow - {id} {
        var n :| n in nodes && n.id == x;
        assert n in kept;
      }
    }
  }

  lemma SpawnedInStep(c: Canvas, op: EditOp)
    requires op.Spawn?
    ensures InStep(c) ==> InStep(WithSpawned(c, op))
    ensures Tidy(c) ==> Tidy(WithSpawned(c, op))
  {
    var next := WithSpawned(c, op);
    var kept := Filter(c.nodes, NotNamed(op.id));
    if Tidy(c) {
      FilterDistinctNodes(c.nodes, op.id);
      assert forall i | 0 <= i < |kept| :: kept[i] in kept;
    }
    if InStep(c) && c.workflow.Some? {
      RemovedNodesInStep(c.nodes, c.workflow.value.nodes, op.id);
      var w, added := next.workflow.value.nodes, next.nodes[|kept|];
      assert forall n :: n in next.nodes <==> n in kept || n == added;
      forall x ensures x in w <==> exists n | n in next.nodes :: n.id == x {
        if x in w && x != op.id {
          assert x in c.workflow.value.nodes - {op.id};
          var n :| n in kept && n.id == x;
          assert n in next.nodes;
        } else if x in w {
          assert added in next.nodes && added.id == x;
        }
      }
    }
  }

  // ----- a whole session -----

  lemma StepInStep(lineage: Lineage, c: Canvas, op: EditOp)
    requires Step(lineage, c, op).Ok?
    ensures InStep(c) ==> InStep(Step(lineage, c, op).value)
    ensures Tidy(c) ==> Tidy(Step(lineage, c, op).value)
  {
    var next := Step(lineage, c, op).value;
    match op
    case Spawn(_, _, _, _, _, _) =>
      SpawnedInStep(c, op);
      if op.source.Some? && op.source.value != "" {
        var m := lineage(SourceType(WithSpawned(c, op), op.source.value).value, op.nodeType).value;
        ConnectedInStep(WithSpawned(c, op), SpawnEdge(op, op.source.value, m));
      }
    case Remove(id) => RemoveInStep(c, id);
    case Connect(from, to, kind) => ConnectedInStep(c, GraphEdge(from, to, kind));
    case Disconnect(from, to, kind) => KeepEdgesInStep(c, OtherSignature(Signature(GraphEdge(from, to, kind))));
    case _ => ShapeKept(c, next);
  }

  /** Any session the preview completes keeps the canvas and the workflow graph in step,
      keeps node ids unique and repeats no edge signature. */
  lemma {:induction false} PreviewStaysInStep(lineage: Lineage, c: Canvas, ops: seq<EditOp>)
    requires Preview(lineage, c, ops).Ok?
    ensures InStep(c) ==> InStep(Preview(lineage, c, ops).value)
    ensures Tidy(c) ==> Tidy(Preview(lineage, c, ops).value)
  {
    if ops != [] {
      PreviewStaysInStep(lineage, c, Init(ops));
      StepInStep(lineage, Preview(lineage, c, Init(ops)).value, Last(ops));
    }
  }

  // ----- what the clone leaves out -----

  /** A previewed workflow graph has the schema version it came with and no catalog revision,
      whatever the session does. */
  lemma {:induction false} RevisionIsDropped(lineage: Lineage, c: Canvas, ops: seq<EditOp>)
    requires c.workflow.Some? && Preview(lineage, Cloned(c), ops).Ok?
    ensures var r := Preview(lineage, Cloned(c), ops).value;
      && r.workflow.Some? && r.workflow.value.catalogRevision == None
      && r.workflow.value.schemaVersion == c.workflow.value.schemaVersion
  {
    if ops != [] {
      RevisionIsDropped(lineage, c, Init(ops));
    }
  }
}
