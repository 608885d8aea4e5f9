/** What each edit does to the canvas and to the workflow graph, and what it leaves alone
    (web/src/workbench-edit-session.ts:260-405). */
module EditEffects {
  import opened Json
  import opened Ordering
  import opened Seqs
  import opened Graph
  import opened ManualEdit

  // ----- one node -----

  /** In the workflow graph nothing but the node `id`, if it is there, may differ. */
  predicate OnlyNode(w: Option<WorkflowGraph>, v: Option<WorkflowGraph>, id: string) {
    && (w.Some? <==> v.Some?)
    && (w.Some? ==>
          && v.value.(nodes := w.value.nodes) == w.value && v.value.nodes.Keys == w.value.nodes.Keys
          && forall x | x in w.value.nodes && x != id :: v.value.nodes[x] == w.value.nodes[x])
  }

  predicate HasNode(w: Option<WorkflowGraph>, id: string) { w.Some? && id in w.value.nodes }

  /** On the canvas nothing but the nodes `id` may differ. */
  predicate OnlyShown(a: seq<CanvasNode>, b: seq<CanvasNode>, id: string) {
    |a| == |b| && forall i | 0 <= i < |a| && a[i].id != id :: b[i] == a[i]
  }

  lemma MoveEffect(lineage: Lineage, c: Canvas, id: string, pos: Point)
    ensures var r := Step(lineage, c, Move(id, pos));
      && r.Ok? && r.value.edges == c.edges
      && OnlyShown(c.nodes, r.value.nodes, id) && OnlyNode(c.workflow, r.value.workflow, id)
      && (forall i | 0 <= i < |c.nodes| && c.nodes[i].id == id ::
            r.value.nodes[i].position == pos && r.value.nodes[i].(position := c.nodes[i].position) == c.nodes[i])
      && (HasNode(c.workflow, id) ==>
            var n, m := c.workflow.value.nodes[id], r.value.workflow.value.nodes[id];
            m.pos == pos && m.(pos := n.pos) == n)
  {
  }

  lemma ResizeEffect(lineage: Lineage, c: Canvas, id: string, extent: Point)
    ensures var r := Step(lineage, c, Resize(id, extent));
      && r.Ok? && r.value.edges == c.edges
      && OnlyShown(c.nodes, r.value.nodes, id) && OnlyNode(c.workflow, r.value.workflow, id)
      && (forall i | 0 <= i < |c.nodes| && c.nodes[i].id == id ::
            r.value.nodes[i].size == Some(extent) && r.value.nodes[i].(size := c.nodes[i].size) == c.nodes[i])
      && (HasNode(c.workflow, id) ==>
            var n, m := c.workflow.value.nodes[id], r.value.workflow.value.nodes[id];
            m.size == Some(extent) && m.(size := n.size) == n)
  {
  }

  lemma SemanticsEffect(lineage: Lineage, c: Canvas, id: string, semantics: Option<Semantics>)
    ensures var r := Step(lineage, c, SetSemanticsOf(id, semantics));
      && r.Ok? && r.value.edges == c.edges && r.value.nodes == c.nodes
      && OnlyNode(c.workflow, r.value.workflow, id)
      && (HasNode(c.workflow, id) ==>
            var n, m := c.workflow.value.nodes[id], r.value.workflow.value.nodes[id];
            m.semantics == semantics && m.(semantics := n.semantics) == n)
  {
  }

  /** What a node holds under a key; nothing if its params are no object. */
  function Held(n: GraphNode, key: string): Option<Value> {
    if n.params.Obj? && key in n.params.fields then Some(n.params.fields[key]) else None
  }

  /** Setting a param sets that one and keeps all others. */
  lemma ParamEffect(lineage: Lineage, c: Canvas, id: string, key: string, value: Value)
    ensures var r := Step(lineage, c, SetParamOf(id, key, value));
      && r.Ok? && r.value.edges == c.edges
      && OnlyShown(c.nodes, r.value.nodes, id) && OnlyNode(c.workflow, r.value.workflow, id)
      && (forall i | 0 <= i < |c.nodes| && c.nodes[i].id == id ::
            && r.value.nodes[i].summary == ParamSet(key, value)
            && r.value.nodes[i].(summary := c.nodes[i].summary) == c.nodes[i])
      && (HasNode(c.workflow, id) ==>
            var n, m := c.workflow.value.nodes[id], r.value.workflow.value.nodes[id];
            && m.params.Obj? && m.(params := n.params) == n
            && forall k :: Held(m, k) == if k == key then Some(value) else Held(n, k))
  {
  }

  // ----- edges -----

  predicate SameKey(e: GraphEdge, from: Port, to: Port, kind: string) {
    e.from.node + ":" + e.from.name + ">" + e.to.node + ":" + e.to.name + ":" + e.edgeType
      == from.node + ":" + from.name + ">" + to.node + ":" + to.name + ":" + kind
  }

  predicate SameKeyShown(e: CanvasEdge, from: Port, to: Port, kind: string) {
    SameKey(GraphEdge(e.from, e.to, e.kind), from, to, kind)
  }

  /** The edge is appended unless one of its signature is there. */
  ghost predicate EdgeAdded(a: seq<GraphEdge>, b: seq<GraphEdge>, from: Port, to: Port, kind: string) {
    if exists e | e in a :: SameKey(e, from, to, kind) then b == a else b == a + [GraphEdge(from, to, kind)]
  }

  ghost predicate EdgeShown(a: seq<CanvasEdge>, b: seq<CanvasEdge>, from: Port, to: Port, kind: string) {
    if exists e | e in a :: SameKeyShown(e, from, to, kind) then b == a
    else b == a + [CanvasEdge(Made(from, to, |a|), from, to, kind)]
  }

  /** Both representations gain the edge, each unless it has one of that signature. */
  ghost predicate Gains(c: Canvas, r: Canvas, from: Port, to: Port, kind: string) {
    && r.nodes == c.nodes && EdgeShown(c.edges, r.edges, from, to, kind)
    && (c.workflow.Some? <==> r.workflow.Some?)
    && (c.workflow.Some? ==>
          && r.workflow.value.(edges := c.workflow.value.edges) == c.workflow.value
          && EdgeAdded(c.workflow.value.edges, r.workflow.value.edges, from, to, kind))
  }

  lemma ConnectedGains(c: Canvas, e: GraphEdge)
    ensures Gains(c, Connected(c, e), e.from, e.to, e.edgeType)
  {
    WiresHold(c.edges, e);
  }

  lemma WiresHold(edges: seq<CanvasEdge>, e: GraphEdge)
    ensures HasSignature(Wires(edges), Signature(e))
      <==> exists x | x in edges :: SameKeyShown(x, e.from, e.to, e.edgeType)
  {
    forall x | x in edges && SameKeyShown(x, e.from, e.to, e.edgeType)
      ensures HasSignature(Wires(edges), Signature(e))
    {
      var i :| 0 <= i < |edges| && edges[i] == x;
      assert Wires(edges)[i] in Wires(edges);
    }
    if HasSignature(Wires(edges), Signature(e)) {
      var w :| w in Wires(edges) && Signature(w) == Signature(e);
      var i :| 0 <= i < |edges| && Wires(edges)[i] == w;
      assert edges[i] in edges;
    }
  }

  lemma ConnectEffect(lineage: Lineage, c: Canvas, from: Port, to: Port, kind: string)
    ensures var r := Step(lineage, c, Connect(from, to, kind)); r.Ok? && Gains(c, r.value, from, to, kind)
  {
    ConnectedGains(c, GraphEdge(from, to, kind));
  }

  function OtherKey(from: Port, to: Port, kind: string): GraphEdge -> bool {
    (e: GraphEdge) => !SameKey(e, from, to, kind)
  }

  function OtherKeyShown(from: Port, to: Port, kind: string): CanvasEdge -> bool {
    (e: CanvasEdge) => !SameKeyShown(e, from, to, kind)
  }

  function OtherId(id: string): CanvasNode -> bool { (n: CanvasNode) => n.id != id }
  function AwayFrom(id: string): GraphEdge -> bool { (e: GraphEdge) => e.from.node != id && e.to.node != id }
  function AwayFromShown(id: string): CanvasEdge -> bool { (e: CanvasEdge) => e.from.node != id && e.to.node != id }

  lemma EdgesWithoutKey(es: seq<GraphEdge>, from: Port, to: Port, kind: string)
    ensures Thinned(es, Filter(es, OtherSignature(Signature(GraphEdge(from, to, kind)))), OtherKey(from, to, kind))
  {
    var keep, same := OtherSignature(Signature(GraphEdge(from, to, kind))), OtherKey(from, to, kind);
    forall e | e in es ensures keep(e) == same(e) {}
    FilterIsThinned(es, keep, same);
  }

  lemma EdgesAway(es: seq<GraphEdge>, id: string)
    ensures Thinned(es, Filter(es, Avoiding({id})), AwayFrom(id))
  {
    forall e | e in es ensures Avoiding({id})(e) == AwayFrom(id)(e) {}
    FilterIsThinned(es, Avoiding({id}), AwayFrom(id));
  }

  lemma ShownWithoutKey(es: seq<CanvasEdge>, from: Port, to: Port, kind: string)
    ensures Thinned(es, Filter(es, WireKept(OtherSignature(Signature(GraphEdge(from, to, kind))))),
                    OtherKeyShown(from, to, kind))
  {
    var keep, same := WireKept(OtherSignature(Signature(GraphEdge(from, to, kind)))), OtherKeyShown(from, to, kind);
    forall e | e in es ensures keep(e) == same(e) {
      assert keep(e) == OtherSignature(Signature(GraphEdge(from, to, kind)))(Wire(e));
    }
    FilterIsThinned(es, keep, same);
  }

  lemma ShownAway(es: seq<CanvasEdge>, id: string)
    ensures Thinned(es, Filter(es, WireKept(Avoiding({id}))), AwayFromShown(id))
  {
    forall e | e in es ensures WireKept(Avoiding({id}))(e) == AwayFromShown(id)(e) {
      assert WireKept(Avoiding({id}))(e) == Avoiding({id})(Wire(e));
    }
    FilterIsThinned(es, WireKept(Avoiding({id})), AwayFromShown(id));
  }

  /** Disconnecting removes every edge of the signature and no other. */
  lemma DisconnectEffect(lineage: Lineage, c: Canvas, from: Port, to: Port, kind: string)
    ensures var r := Step(lineage, c, Disconnect(from, to, kind));
      && r.Ok? && r.value.nodes == c.nodes && Thinned(c.edges, r.value.edges, OtherKeyShown(from, to, kind))
      && (c.workflow.Some? <==> r.value.workflow.Some?)
      && (c.workflow.Some? ==>
            && r.value.workflow.value.(edges := c.workflow.value.edges) == c.workflow.value
            && Thinned(c.workflow.value.edges, r.value.workflow.value.edges, OtherKey(from, to, kind)))
  {
    ShownWithoutKey(c.edges, from, to, kind);
    if c.workflow.Some? {
      EdgesWithoutKey(c.workflow.value.edges, from, to, kind);
    }
  }

  /** The workflow graph without a node and the edges that touch it. */
  ghost predicate NodeGone(w: WorkflowGraph, v: WorkflowGraph, id: string) {
    && v.(nodes := w.nodes, edges := w.edges) == w && id !in v.nodes
    && v.nodes.Keys == w.nodes.Keys - {id} && (forall x | x in v.nodes :: v.nodes[x] == w.nodes[x])
    && Thinned(w.edges, v.edges, AwayFrom(id))
  }

  /** Removing a node takes it and the edges that touch it, and nothing else. */
  lemma RemoveEffect(lineage: Lineage, c: Canvas, id: string)
    ensures var r := Step(lineage, c, Remove(id));
      && r.Ok? && Thinned(c.nodes, r.value.nodes, OtherId(id))
      && Thinned(c.edges, r.value.edges, AwayFromShown(id))
      && (c.workflow.Some? <==> r.value.workflow.Some?)
      && (c.workflow.Some? ==> NodeGone(c.workflow.value, r.value.workflow.value, id))
  {
    FilterIsThinned(c.nodes, NotNamed(id), OtherId(id));
    ShownAway(c.edges, id);
    if c.workflow.Some? {
      EdgesAway(c.workflow.value.edges, id);
    }
  }

  // ----- spawning -----

  predicate Blank(s: string) { forall i | 0 <= i < |s| :: IsSpace(s[i]) }

  /** The title without the white space around it, or the id if nothing is left. */
  ghost predicate TitleIs(op: EditOp, title: string)
    requires op.Spawn?
  {
    if op.title.None? || Blank(op.title.value) then title == op.id
    else
      && title != "" && !IsSpace(title[0]) && !IsSpace(title[|title| - 1])
      && exists a, b :: Blank(a) && Blank(b) && op.title.value == a + title + b
  }

  lemma {:induction false} TrimmedLeft(s: string) returns (a: string)
    ensures Blank(a) && s == a + TrimLeft(s)
    ensures TrimLeft(s) != "" ==> !IsSpace(TrimLeft(s)[0])
  {
    a := "";
    if s != "" && IsSpace(s[0]) {
      var rest := TrimmedLeft(s[1..]);
      a := [s[0]] + rest;
      assert s == [s[0]] + s[1..];
    }
  }

  lemma {:induction false} TrimmedRight(s: string) returns (b: string)
    ensures Blank(b) && s == TrimRight(s) + b
    ensures TrimRight(s) != "" ==> !IsSpace(TrimRight(s)[|TrimRight(s)| - 1])
  {
    b := "";
    if s != "" && IsSpace(s[|s| - 1]) {
      var rest := TrimmedRight(s[..|s| - 1]);
      b := rest + [s[|s| - 1]];
      assert s == s[..|s| - 1] + [s[|s| - 1]];
    }
  }

  lemma SpawnTitleIs(op: EditOp)
    requires op.Spawn?
    ensures TitleIs(op, SpawnTitle(op))
  {
    if op.title.Some? {
      var t := op.title.value;
      var a := TrimmedLeft(t);
      var b := TrimmedRight(TrimLeft(t));
      var title := TrimRight(TrimLeft(t));
      assert t == a + title + b;
      if title == "" {
        assert Blank(a + b) && a + title + b == a + b;
      } else {
        assert title[0] == TrimLeft(t)[0] && t[|a|] == title[0];
      }
    }
  }

  predicate OfFamily(nodeType: string, family: string) { nodeType == family || family + "." <= nodeType }

  predicate CategoryIs(nodeType: string, category: string) {
    && (OfFamily(nodeType, "input") ==> category == "Input") && (OfFamily(nodeType, "output") ==> category == "Output")
    && (OfFamily(nodeType, "llm") ==> category == "Text") && (OfFamily(nodeType, "image") ==> category == "Image")
    && (OfFamily(nodeType, "video") ==> category == "Video")
    && ((forall family | family in {"input", "output", "llm", "image", "video"} :: !OfFamily(nodeType, family)) ==>
          category == "Node")
  }

  lemma {:induction false} PrefixIs(nodeType: string)
    ensures Prefix(nodeType) <= nodeType && '.' !in Prefix(nodeType)
    ensures |Prefix(nodeType)| < |nodeType| ==> nodeType[|Prefix(nodeType)|] == '.'
  {
    if nodeType != "" && nodeType[0] != '.' {
      PrefixIs(nodeType[1..]);
      assert nodeType == [nodeType[0]] + nodeType[1..];
    }
  }

  /** What comes before the first dot is one text. */
  lemma HeadIsUnique(a: string, b: string, t: string)
    requires a <= t && '.' !in a && (|a| < |t| ==> t[|a|] == '.')
    requires b <= t && '.' !in b && (|b| < |t| ==> t[|b|] == '.')
    ensures a == b
  {
    assert forall i | 0 <= i < |a| :: t[i] == a[i] && a[i] in a;
    assert forall i | 0 <= i < |b| :: t[i] == b[i] && b[i] in b;
  }

  lemma FamilyIsPrefix(nodeType: string, family: string)
    requires '.' !in family
    ensures OfFamily(nodeType, family) <==> Prefix(nodeType) == family
  {
    PrefixIs(nodeType);
    if OfFamily(nodeType, family) {
      assert family <= nodeType && (|family| < |nodeType| ==> (family + ".")[|family|] == nodeType[|family|]);
      HeadIsUnique(Prefix(nodeType), family, nodeType);
    }
  }

  lemma CategoryIsRight(nodeType: string)
    ensures CategoryIs(nodeType, Category(nodeType))
  {
    FamilyIsPrefix(nodeType, "input");
    FamilyIsPrefix(nodeType, "output");
    FamilyIsPrefix(nodeType, "llm");
    FamilyIsPrefix(nodeType, "image");
    FamilyIsPrefix(nodeType, "video");
  }

  ghost predicate IsSpawned(op: EditOp, n: CanvasNode)
    requires op.Spawn?
  {
    && n.id == op.id && n.nodeType == op.nodeType && TitleIs(op, n.title) && CategoryIs(op.nodeType, n.category)
    && n.status == "queued" && n.position == op.at && n.size == None && n.provider == None
    && n.summary == Plain(op.nodeType)
  }

  /** The spawned node comes last and replaces all of its id; edges are untouched. */
  ghost predicate SpawnsInto(c: Canvas, r: Canvas, op: EditOp)
    requires op.Spawn?
  {
    && r.edges == c.edges && r.nodes != []
    && Thinned(c.nodes, r.nodes[..|r.nodes| - 1], OtherId(op.id))
    && IsSpawned(op, r.nodes[|r.nodes| - 1])
    && (c.workflow.Some? <==> r.workflow.Some?)
    && (c.workflow.Some? ==>
          var w, v := c.workflow.value, r.workflow.value;
          && v.(nodes := w.nodes) == w && v.nodes.Keys == w.nodes.Keys + {op.id}
          && (forall x | x in w.nodes && x != op.id :: v.nodes[x] == w.nodes[x])
          && TitleIs(op, v.nodes[op.id].title)
          && v.nodes[op.id] == GraphNode(op.nodeType, v.nodes[op.id].title, op.params, op.at, None, None))
  }

  lemma SpawnedInto(c: Canvas, op: EditOp)
    requires op.Spawn?
    ensures SpawnsInto(c, WithSpawned(c, op), op)
  {
    var r := WithSpawned(c, op);
    FilterIsThinned(c.nodes, NotNamed(op.id), OtherId(op.id));
    assert r.nodes[..|r.nodes| - 1] == Filter(c.nodes, NotNamed(op.id));
    SpawnTitleIs(op);
    CategoryIsRight(op.nodeType);
  }

  /** The type of the first shown node of this id, or of the workflow's. */
  ghost predicate TypeOf(c: Canvas, id: string, nodeType: Option<string>) {
    if exists n | n in c.nodes :: n.id == id then
      exists i | 0 <= i < |c.nodes| ::
        c.nodes[i].id == id && nodeType == Some(c.nodes[i].nodeType) && forall j | 0 <= j < i :: c.nodes[j].id != id
    else nodeType == if HasNode(c.workflow, id) then Some(c.workflow.value.nodes[id].nodeType) else None
  }

  lemma {:induction false} FirstType(nodes: seq<CanvasNode>, id: string)
    ensures NodeTypeOf(nodes, id).None? <==> forall n | n in nodes :: n.id != id
    ensures NodeTypeOf(nodes, id).Some? ==> exists i | 0 <= i < |nodes| ::
      && nodes[i].id == id && NodeTypeOf(nodes, id) == Some(nodes[i].nodeType)
      && forall j | 0 <= j < i :: nodes[j].id != id
  {
    if nodes != [] {
      FirstType(nodes[1..], id);
      if nodes[0].id != id && NodeTypeOf(nodes, id).Some? {
        var i :| 0 <= i < |nodes[1..]| && nodes[1..][i].id == id
          && NodeTypeOf(nodes[1..], id) == Some(nodes[1..][i].nodeType)
          && forall j | 0 <= j < i :: nodes[1..][j].id != id;
        assert nodes[i + 1].id == id && forall j | 0 < j < i + 1 :: nodes[j] == nodes[1..][j - 1];
      }
    }
  }

  /** Spawning from a source adds an edge from it to the new node, as the lineage of their types
      has it; without a source there is no edge, and without a lineage no node either. */
  lemma SpawnEffect(lineage: Lineage, c: Canvas, op: EditOp) returns (spawned: Canvas, sourceType: Option<string>)
    requires op.Spawn?
    ensures SpawnsInto(c, spawned, op)
    ensures op.source.None? || op.source.value == "" ==> Step(lineage, c, op) == Ok(spawned)
    ensures op.source.Some? && op.source.value != "" ==> TypeOf(spawned, op.source.value, sourceType)
    ensures op.source.Some? && op.source.value != "" && (sourceType.None? || sourceType.value == "") ==>
      Step(lineage, c, op) == Err(SourceMissing(op.source.value))
    ensures op.source.Some? && op.source.value != "" && sourceType.Some? && sourceType.value != "" ==>
      SpawnsFrom(lineage, spawned, op, sourceType.value, Step(lineage, c, op))
  {
    spawned, sourceType := WithSpawned(c, op), None;
    SpawnedInto(c, op);
    if op.source.Some? && op.source.value != "" {
      sourceType := SourceType(spawned, op.source.value);
      FirstType(spawned.nodes, op.source.value);
      if sourceType.Some? && sourceType.value != "" && lineage(sourceType.value, op.nodeType).Some? {
        ConnectedGains(spawned, SpawnEdge(op, op.source.value, lineage(sourceType.value, op.nodeType).value));
      }
    }
  }

  ghost predicate SpawnsFrom(
    lineage: Lineage, spawned: Canvas, op: EditOp, source: string, r: Result<Canvas, EditError>)
    requires op.Spawn? && op.source.Some?
  {
    var m := lineage(source, op.nodeType);
    if m.None? then r == Err(NoLineage(source, op.nodeType))
    else
      && r.Ok?
      && Gains(spawned, r.value,
               Port(op.source.value, m.value.sourcePort), Port(op.id, m.value.targetPort), m.value.edgeType)
  }

  // ----- a whole session -----

  /** Whether an operation decides what node `id` holds under `key`. */
  predicate Decides(op: EditOp, id: string, key: string) {
    || (op.SetParamOf? && op.id == id && op.key == key)
    || (op.Spawn? && op.id == id)
    || (op.Remove? && op.id == id)
  }

  lemma OthersKeepTheParam(lineage: Lineage, c: Canvas, op: EditOp, id: string, key: string)
    requires Step(lineage, c, op).Ok? && !Decides(op, id, key)
    ensures var r := Step(lineage, c, op).value;
      && (HasNode(c.workflow, id) <==> HasNode(r.workflow, id))
      && (HasNode(r.workflow, id) ==> Held(r.workflow.value.nodes[id], key) == Held(c.workflow.value.nodes[id], key))
  {
  }

  /** After a session a node holds what the last operation that decides it has set. */
  lemma {:induction false} LastParamIsHeld(
    lineage: Lineage, c: Canvas, ops: seq<EditOp>, i: nat, id: string, key: string)
    requires Preview(lineage, c, ops).Ok? && i < |ops| && ops[i].SetParamOf? && ops[i].id == id && ops[i].key == key
    requires forall j | i < j < |ops| :: !Decides(ops[j], id, key)
    requires HasNode(Preview(lineage, c, ops).value.workflow, id)
    ensures Held(Preview(lineage, c, ops).value.workflow.value.nodes[id], key) == Some(ops[i].value)
    decreases |ops|
  {
    var before := Preview(lineage, c, Init(ops)).value;
    if i == |ops| - 1 {
      ParamEffect(lineage, before, id, key, ops[i].value);
    } else {
      OthersKeepTheParam(lineage, before, Last(ops), id, key);
      LastParamIsHeld(lineage, c, Init(ops), i, id, key);
    }
  }

  /** What no operation decides is held as it was. */
  lemma {:induction false} UntouchedParamIsHeld(lineage: Lineage, c: Canvas, ops: seq<EditOp>, id: string, key: string)
    requires Preview(lineage, c, ops).Ok? && forall j | 0 <= j < |ops| :: !Decides(ops[j], id, key)
    ensures var r := Preview(lineage, c, ops).value;
      && (HasNode(c.workflow, id) <==> HasNode(r.workflow, id))
      && (HasNode(r.workflow, id) ==> Held(r.workflow.value.nodes[id], key) == Held(c.workflow.value.nodes[id], key))
    decreases |ops|
  {
    if ops != [] {
      UntouchedParamIsHeld(lineage, c, Init(ops), id, key);
      OthersKeepTheParam(lineage, Preview(lineage, c, Init(ops)).value, Last(ops), id, key);
    }
  }
}
