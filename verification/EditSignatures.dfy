/** When the two representations of a preview agree by edge signature, for good. */
module EditSignatures {
  import opened Json
  import opened Ordering
  import opened Seqs
  import opened Graph
  import opened ManualEdit
  import opened EditInStep

  ghost predicate SameSignatures(a: seq<GraphEdge>, b: seq<GraphEdge>) {
    forall signature :: HasSignature(a, signature) <==> HasSignature(b, signature)
  }

  /** The signatures of the canvas edges are those of the workflow graph, if there is one. */
  ghost predicate SignaturesAgree(c: Canvas) {
    c.workflow.Some? ==> SameSignatures(Wires(c.edges), c.workflow.value.edges)
  }

  function Ends(e: GraphEdge): set<string> { {e.from.node, e.to.node} }

  predicate StandsIn(x: GraphEdge, e: GraphEdge) { Signature(x) == Signature(e) && Ends(x) <= Ends(e) }

  /** Every edge on the left has one on the right with its signature, at none but its own ends. */
  ghost predicate Covers(a: seq<GraphEdge>, b: seq<GraphEdge>) {
    forall e | e in a :: exists x :: x in b && StandsIn(x, e)
  }

  ghost predicate Covered(c: Canvas) {
    c.workflow.Some? ==>
      Covers(Wires(c.edges), c.workflow.value.edges) && Covers(c.workflow.value.edges, Wires(c.edges))
  }

  // ----- covering is enough -----

  lemma CoversSignatures(a: seq<GraphEdge>, b: seq<GraphEdge>)
    requires Covers(a, b)
    ensures forall signature :: HasSignature(a, signature) ==> HasSignature(b, signature)
  {
    forall signature | HasSignature(a, signature) ensures HasSignature(b, signature) {
      var e :| e in a && Signature(e) == signature;
      var x :| x in b && StandsIn(x, e);
    }
  }

  lemma CoversAdd(a: seq<GraphEdge>, b: seq<GraphEdge>, e: GraphEdge)
    requires Covers(a, b) && Covers(b, a)
    ensures Covers(AddWire(a, e), AddWire(b, e))
  {
    AddsAlike(a, b, e);
    CoversMore(a, b, b + [e]);
    CoversOne(a, e, b + [e]);
  }

  /** Either both sides gain the edge or neither does. */
  lemma AddsAlike(a: seq<GraphEdge>, b: seq<GraphEdge>, e: GraphEdge)
    requires Covers(a, b) && Covers(b, a)
    ensures (AddWire(a, e) == a && AddWire(b, e) == b) || (AddWire(a, e) == a + [e] && AddWire(b, e) == b + [e])
  {
    CoversSignatures(a, b);
    CoversSignatures(b, a);
  }

  lemma CoversMore(a: seq<GraphEdge>, b: seq<GraphEdge>, more: seq<GraphEdge>)
    requires Covers(a, b) && forall x | x in b :: x in more
    ensures Covers(a, more)
  {
    forall e | e in a ensures exists x :: x in more && StandsIn(x, e) {
      var x :| x in b && StandsIn(x, e);
    }
  }

  lemma CoversOne(a: seq<GraphEdge>, e: GraphEdge, b: seq<GraphEdge>)
    requires Covers(a, b) && e in b
    ensures Covers(a + [e], b)
  {
    assert StandsIn(e, e);
  }

  /** A filter keeps covering if it keeps, with an edge, whatever stands in for it. */
  lemma CoversFilter(a: seq<GraphEdge>, b: seq<GraphEdge>, keep: GraphEdge -> bool)
    requires Covers(a, b) && forall x, e | StandsIn(x, e) && keep(e) :: keep(x)
    ensures Covers(Filter(a, keep), Filter(b, keep))
  {
    forall e | e in Filter(a, keep) ensures exists x :: x in Filter(b, keep) && StandsIn(x, e) {
      var x :| x in b && StandsIn(x, e);
    }
  }

  lemma ConnectedCovered(c: Canvas, e: GraphEdge)
    requires Covered(c)
    ensures Covered(Connected(c, e))
  {
    WiresAdd(c.edges, e);
    if c.workflow.Some? {
      CoversAdd(Wires(c.edges), c.workflow.value.edges, e);
      CoversAdd(c.workflow.value.edges, Wires(c.edges), e);
    }
  }

  lemma KeepEdgesCovered(c: Canvas, keep: GraphEdge -> bool)
    requires Covered(c) && forall x, e | StandsIn(x, e) && keep(e) :: keep(x)
    ensures Covered(KeepEdges(c, keep))
  {
    WiresFilter(c.edges, keep);
    if c.workflow.Some? {
      CoversFilter(Wires(c.edges), c.workflow.value.edges, keep);
      CoversFilter(c.workflow.value.edges, Wires(c.edges), keep);
    }
  }

  lemma RemoveCovered(c: Canvas, id: string)
    requires Covered(c)
    ensures Covered(DoRemove(c, id))
  {
    KeepEdgesCovered(c, Avoiding({id}));
  }

  lemma SpawnCovered(lineage: Lineage, c: Canvas, op: EditOp)
    requires Covered(c) && op.Spawn? && DoSpawn(lineage, c, op).Ok?
    ensures Covered(DoSpawn(lineage, c, op).value)
  {
    var spawned := WithSpawned(c, op);
    assert Covered(spawned);
    if op.source.Some? && op.source.value != "" {
      var m := lineage(SourceType(spawned, op.source.value).value, op.nodeType).value;
      ConnectedCovered(spawned, SpawnEdge(op, op.source.value, m));
    }
  }

  lemma EdgesKept(lineage: Lineage, c: Canvas, op: EditOp)
    requires op.Move? || op.Resize? || op.SetSemanticsOf? || op.SetParamOf?
    ensures Step(lineage, c, op).Ok?
    ensures var next := Step(lineage, c, op).value;
      && next.edges == c.edges && (next.workflow.Some? <==> c.workflow.Some?)
      && (c.workflow.Some? && next.workflow.Some? ==> next.workflow.value.edges == c.workflow.value.edges)
  {
  }

  lemma StepCovered(lineage: Lineage, c: Canvas, op: EditOp)
    requires Covered(c) && Step(lineage, c, op).Ok?
    ensures Covered(Step(lineage, c, op).value)
  {
    match op
    case Spawn(_, _, _, _, _, _) => SpawnCovered(lineage, c, op);
    case Remove(id) => RemoveCovered(c, id);
    case Connect(from, to, kind) => ConnectedCovered(c, GraphEdge(from, to, kind));
    case Disconnect(from, to, kind) => DisconnectCovered(c, Signature(GraphEdge(from, to, kind)));
    case _ => EdgesKept(lineage, c, op);
  }

  lemma DisconnectCovered(c: Canvas, signature: string)
    requires Covered(c)
    ensures Covered(KeepEdges(c, OtherSignature(signature)))
  {
    KeepEdgesCovered(c, OtherSignature(signature));
  }

  lemma {:induction false} SessionCovered(lineage: Lineage, c: Canvas, ops: seq<EditOp>)
    requires Covered(c) && Preview(lineage, c, ops).Ok?
    ensures Covered(Preview(lineage, c, ops).value)
  {
    if ops != [] {
      SessionCovered(lineage, c, Init(ops));
      StepCovered(lineage, Preview(lineage, c, Init(ops)).value, Last(ops));
    }
  }

  lemma CoveredAgree(c: Canvas)
    requires Covered(c)
    ensures SignaturesAgree(c)
  {
    if c.workflow.Some? {
      CoversSignatures(Wires(c.edges), c.workflow.value.edges);
      CoversSignatures(c.workflow.value.edges, Wires(c.edges));
    }
  }

  // ----- and necessary: remove every end the edge does not have -----

  function Removes(ids: seq<string>): seq<EditOp> {
    if ids == [] then [] else Removes(ids[..|ids| - 1]) + [Remove(ids[|ids| - 1])]
  }

  /** The ends in `es` that are not ends of `e`. */
  function Foreign(es: seq<GraphEdge>, e: GraphEdge): seq<string> {
    if es == [] then []
    else Filter([es[0].from.node, es[0].to.node], (id: string) => id !in Ends(e)) + Foreign(es[1..], e)
  }

  lemma {:induction false} ForeignMeaning(es: seq<GraphEdge>, e: GraphEdge)
    ensures forall id | id in Foreign(es, e) :: id !in Ends(e)
    ensures forall x | x in es :: forall id | id in Ends(x) && id !in Ends(e) :: id in Foreign(es, e)
  {
    if es != [] {
      ForeignMeaning(es[1..], e);
      assert forall x | x in es :: x == es[0] || x in es[1..];
    }
  }

  /** `r` holds the edges of `es` that end at none of the ids. */
  ghost predicate Leaves(es: seq<GraphEdge>, ids: seq<string>, r: seq<GraphEdge>) {
    forall e :: e in r <==> e in es && forall id | id in ids :: id !in Ends(e)
  }

  ghost predicate BothLeave(c: Canvas, ids: seq<string>, r: Canvas) {
    && Leaves(Wires(c.edges), ids, Wires(r.edges))
    && (r.workflow.Some? <==> c.workflow.Some?)
    && (c.workflow.Some? && r.workflow.Some? ==> Leaves(c.workflow.value.edges, ids, r.workflow.value.edges))
  }

  lemma LeavesOneLess(es: seq<GraphEdge>, ids: seq<string>, r: seq<GraphEdge>, id: string)
    requires Leaves(es, ids, r)
    ensures Leaves(es, ids + [id], Filter(r, Avoiding({id})))
  {
    forall e ensures e in Filter(r, Avoiding({id})) <==> e in es && forall x | x in ids + [id] :: x !in Ends(e) {
      assert Avoiding({id})(e) <==> id !in Ends(e);
      assert forall x :: x in ids + [id] <==> x in ids || x == id;
    }
  }

  lemma RemoveLeaves(c: Canvas, ids: seq<string>, b: Canvas, id: string)
    requires BothLeave(c, ids, b)
    ensures BothLeave(c, ids + [id], DoRemove(b, id))
  {
    WiresFilter(b.edges, Avoiding({id}));
    LeavesOneLess(Wires(c.edges), ids, Wires(b.edges), id);
    if c.workflow.Some? {
      LeavesOneLess(c.workflow.value.edges, ids, b.workflow.value.edges, id);
    }
  }

  /** Removals throw nothing and leave the edges that avoid what was removed. */
  lemma {:induction false} RemovesRun(lineage: Lineage, c: Canvas, ids: seq<string>)
    ensures Preview(lineage, c, Removes(ids)).Ok? && BothLeave(c, ids, Preview(lineage, c, Removes(ids)).value)
  {
    if ids != [] {
      var before, id := ids[..|ids| - 1], ids[|ids| - 1];
      RemovesRun(lineage, c, before);
      assert Init(Removes(ids)) == Removes(before) && Last(Removes(ids)) == Remove(id);
      RemoveLeaves(c, before, Preview(lineage, c, Removes(before)).value, id);
      assert ids == before + [id];
    }
  }

  /** If agreement outlasts these removals, the edge is covered. */
  lemma AgreementCovers(
    lineage: Lineage, c: Canvas, e: GraphEdge, a: seq<GraphEdge>, b: seq<GraphEdge>)
    requires c.workflow.Some? && e in a
    requires (a == Wires(c.edges) && b == c.workflow.value.edges)
      || (b == Wires(c.edges) && a == c.workflow.value.edges)
    requires Preview(lineage, c, Removes(Foreign(b, e))).Ok? ==>
      SignaturesAgree(Preview(lineage, c, Removes(Foreign(b, e))).value)
    ensures exists x :: x in b && StandsIn(x, e)
  {
    ForeignMeaning(b, e);
    RemovesRun(lineage, c, Foreign(b, e));
    var r := Preview(lineage, c, Removes(Foreign(b, e))).value;
    var other := if a == Wires(c.edges) && b == c.workflow.value.edges then r.workflow.value.edges else Wires(r.edges);
    assert HasSignature(
      if a == Wires(c.edges) && b == c.workflow.value.edges then Wires(r.edges) else r.workflow.value.edges,
      Signature(e));
    assert HasSignature(other, Signature(e));
    var x :| x in other && Signature(x) == Signature(e);
    assert x in b && Ends(x) <= Ends(e);
  }

  ghost predicate AgreementLasts(lineage: Lineage, c: Canvas) {
    forall ops | Preview(lineage, c, ops).Ok? :: SignaturesAgree(Preview(lineage, c, ops).value)
  }

  lemma LastingCovers(lineage: Lineage, c: Canvas)
    requires AgreementLasts(lineage, c) && c.workflow.Some?
    ensures Covers(Wires(c.edges), c.workflow.value.edges) && Covers(c.workflow.value.edges, Wires(c.edges))
  {
    var a, b := Wires(c.edges), c.workflow.value.edges;
    forall e | e in a ensures exists x :: x in b && StandsIn(x, e) {
      AgreementCovers(lineage, c, e, a, b);
    }
    forall e | e in b ensures exists x :: x in a && StandsIn(x, e) {
      AgreementCovers(lineage, c, e, b, a);
    }
  }

  /** Agreement by signature lasts through every session exactly when, at the start, each
      side covers the other. */
  lemma AgreementLastsExactly(lineage: Lineage, c: Canvas)
    ensures AgreementLasts(lineage, c) <==> Covered(c)
  {
    if Covered(c) {
      forall ops | Preview(lineage, c, ops).Ok? ensures SignaturesAgree(Preview(lineage, c, ops).value) {
        SessionCovered(lineage, c, ops);
        CoveredAgree(Preview(lineage, c, ops).value);
      }
    } else if AgreementLasts(lineage, c) {
      LastingCovers(lineage, c);
    }
  }

  // ----- ids without separators -----

  /** No separator occurs where it would move a boundary of the signature. */
  predicate PlainEdge(e: GraphEdge) {
    ':' !in e.from.node && '>' !in e.from.name && ':' !in e.to.node && ':' !in e.to.name
  }

  lemma SplitOnce(a: string, x: string, b: string, y: string, sep: char)
    requires a + [sep] + x == b + [sep] + y && sep !in a && sep !in b
    ensures a == b && x == y
  {
    var s := a + [sep] + x;
    assert s[|a|] == sep && s == b + [sep] + y && s[|b|] == sep;
    assert forall i | 0 <= i < |a| :: s[i] == a[i] && a[i] in a;
    assert forall i | 0 <= i < |b| :: s[i] == b[i] && b[i] in b;
    assert |a| == |b|;
    assert a == s[..|a|] && b == s[..|b|];
    assert x == s[|a| + 1..] && y == s[|b| + 1..];
  }

  /** For plain edges the signature determines the edge. */
  lemma SignatureDeterminesEdge(a: GraphEdge, b: GraphEdge)
    requires PlainEdge(a) && PlainEdge(b) && Signature(a) == Signature(b)
    ensures a == b
  {
    var a1, b1 := a.to.name + ":" + a.edgeType, b.to.name + ":" + b.edgeType;
    var a2, b2 := a.to.node + ":" + a1, b.to.node + ":" + b1;
    var a3, b3 := a.from.name + ">" + a2, b.from.name + ">" + b2;
    assert Signature(a) == a.from.node + ":" + a3 && Signature(b) == b.from.node + ":" + b3;
    SplitOnce(a.from.node, a3, b.from.node, b3, ':');
    SplitOnce(a.from.name, a2, b.from.name, b2, '>');
    SplitOnce(a.to.node, a1, b.to.node, b1, ':');
    SplitOnce(a.to.name, a.edgeType, b.to.name, b.edgeType, ':');
  }

  /** Plain edges at the start are enough for agreement by signature to last, whatever the
      session adds. */
  lemma PlainSessionsAgree(lineage: Lineage, c: Canvas, ops: seq<EditOp>)
    requires SignaturesAgree(c) && Preview(lineage, c, ops).Ok?
    requires c.workflow.Some? ==> forall e | e in Wires(c.edges) || e in c.workflow.value.edges :: PlainEdge(e)
    ensures SignaturesAgree(Preview(lineage, c, ops).value)
  {
    if c.workflow.Some? {
      PlainCovers(Wires(c.edges), c.workflow.value.edges);
      PlainCovers(c.workflow.value.edges, Wires(c.edges));
    }
    AgreementLastsExactly(lineage, c);
    assert AgreementLasts(lineage, c);
  }

  lemma PlainCovers(a: seq<GraphEdge>, b: seq<GraphEdge>)
    requires SameSignatures(a, b) && forall e | e in a || e in b :: PlainEdge(e)
    ensures Covers(a, b)
  {
    forall e | e in a ensures exists x :: x in b && StandsIn(x, e) {
      assert HasSignature(a, Signature(e));
      var x :| x in b && Signature(x) == Signature(e);
      SignatureDeterminesEdge(x, e);
    }
  }

  // ----- an id with a separator -----

  const LEFT := GraphEdge(Port("a", "b:p"), Port("t", "in"), "k")
  const RIGHT := GraphEdge(Port("a:b", "p"), Port("t", "in"), "k")

  function ShownAs(id: string): CanvasNode {
    CanvasNode(id, "n", id, "Node", "queued", Point(0, 0), None, None, Plain("n"))
  }

  function StoredAs(id: string): GraphNode { GraphNode("n", id, Obj(map[]), Point(0, 0), None, None) }

  const NODES := [ShownAs("a"), ShownAs("a:b"), ShownAs("t")]
  const TABLE := map["a" := StoredAs("a"), "a:b" := StoredAs("a:b"), "t" := StoredAs("t")]
  const MIXED := Canvas(NODES, [CanvasEdge(Given("e"), LEFT.from, LEFT.to, "k")],
    Some(WorkflowGraph(1, None, TABLE, [RIGHT])))

  /** Nodes in step, every edge between nodes, equal signatures: and a removal still tells
      the two representations apart. */
  lemma SignatureAgreementIsNotKept(lineage: Lineage)
    ensures NodesInStep(MIXED.nodes, MIXED.workflow.value.nodes) && SignaturesAgree(MIXED)
    ensures Ends(LEFT) <= TABLE.Keys && Ends(RIGHT) <= TABLE.Keys
    ensures Preview(lineage, MIXED, [Remove("a")]).Ok? && !SignaturesAgree(Preview(lineage, MIXED, [Remove("a")]).value)
  {
    assert Signature(LEFT) == "a:b:p>t:in:k" == Signature(RIGHT);
    assert Wires(MIXED.edges) == [LEFT];
    assert forall e | e in [LEFT] || e in [RIGHT] :: Signature(e) == Signature(LEFT);
    assert LEFT in [LEFT] && RIGHT in [RIGHT];
    MixedInStep();
    MixedRemoved(lineage);
  }

  lemma MixedInStep()
    ensures NodesInStep(NODES, TABLE)
  {
    forall id | id in TABLE ensures exists n | n in NODES :: n.id == id {
      assert ShownAs(id) in NODES;
    }
    forall n | n in NODES ensures n.id in TABLE && TABLE[n.id].nodeType == n.nodeType {
      assert n == ShownAs("a") || n == ShownAs("a:b") || n == ShownAs("t");
    }
  }

  lemma MixedRemoved(lineage: Lineage)
    ensures Preview(lineage, MIXED, [Remove("a")]).Ok? && !SignaturesAgree(Preview(lineage, MIXED, [Remove("a")]).value)
  {
    assert Removes(["a"]) == [Remove("a")] by { assert ["a"][..0] == []; }
    RemovesRun(lineage, MIXED, ["a"]);
    var r := Preview(lineage, MIXED, [Remove("a")]).value;
    assert Wires(MIXED.edges) == [LEFT];
    assert !HasSignature(Wires(r.edges), Signature(RIGHT));
    assert RIGHT in r.workflow.value.edges && HasSignature(r.workflow.value.edges, Signature(RIGHT));
  }
}
