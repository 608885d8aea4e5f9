/** Manual-edit sessions (web/src/workbench-edit-session.ts): the preview interpreter over
    the canvas and the workflow graph, and the split into graph and layout operations. */
module ManualEdit {
  import opened Json
  import opened Ordering
  import opened Seqs
  import opened Graph

  /** Edges the preview adds are named after their ports and the edge count at the time. */
  datatype EdgeId = Given(text: string) | Made(from: Port, to: Port, index: nat)
  datatype CanvasEdge = CanvasEdge(id: EdgeId, from: Port, to: Port, kind: string)
  datatype Summary = Plain(text: string) | ParamSet(key: string, value: Value)
  datatype CanvasNode = CanvasNode(
    id: string, nodeType: string, title: string, category: string, status: string,
    position: Point, size: Option<Point>, provider: Option<string>, summary: Summary)

  datatype Canvas = Canvas(nodes: seq<CanvasNode>, edges: seq<CanvasEdge>, workflow: Option<WorkflowGraph>)

  datatype EditOp =
    | Move(id: string, pos: Point)
    | Resize(id: string, extent: Point)
    | SetSemanticsOf(id: string, semantics: Option<Semantics>)
    | SetParamOf(id: string, key: string, value: Value)
    | Spawn(id: string, nodeType: string, title: Option<string>, params: Value, at: Point, source: Option<string>)
    | Remove(id: string)
    | Connect(from: Port, to: Port, kind: string)
    | Disconnect(from: Port, to: Port, kind: string)

  datatype EditError = SourceMissing(id: string) | NoLineage(source: string, target: string)

  datatype LineageMatch = LineageMatch(sourcePort: string, targetPort: string, edgeType: string)
  /** `lineageConnection` on two node types; None where it throws. */
  type Lineage = (string, string) -> Option<LineageMatch>

  // ----- edges -----

  /** `a:p>b:q:kind`, the key under which edges are compared. */
  function Signature(e: GraphEdge): string {
    e.from.node + ":" + e.from.name + ">" + e.to.node + ":" + e.to.name + ":" + e.edgeType
  }

  function Wire(e: CanvasEdge): GraphEdge { GraphEdge(e.from, e.to, e.kind) }

  predicate HasSignature(es: seq<GraphEdge>, signature: string) {
    exists e | e in es :: Signature(e) == signature
  }

  function Wires(edges: seq<CanvasEdge>): seq<GraphEdge> {
    seq(|edges|, i requires 0 <= i < |edges| => Wire(edges[i]))
  }

  function AddWire(es: seq<GraphEdge>, e: GraphEdge): seq<GraphEdge> {
    if HasSignature(es, Signature(e)) then es else es + [e]
  }

  function AddCanvasEdge(edges: seq<CanvasEdge>, e: GraphEdge): seq<CanvasEdge> {
    if HasSignature(Wires(edges), Signature(e)) then edges
    else edges + [CanvasEdge(Made(e.from, e.to, |edges|), e.from, e.to, e.edgeType)]
  }

  function OtherSignature(signature: string): GraphEdge -> bool { (e: GraphEdge) => Signature(e) != signature }
  function WireKept(keep: GraphEdge -> bool): CanvasEdge -> bool { (e: CanvasEdge) => keep(Wire(e)) }

  function Connected(c: Canvas, e: GraphEdge): Canvas {
    c.(edges := AddCanvasEdge(c.edges, e),
       workflow := if c.workflow.Some? then Some(c.workflow.value.(edges := AddWire(c.workflow.value.edges, e)))
         else None)
  }

  function KeepEdges(c: Canvas, keep: GraphEdge -> bool): Canvas {
    c.(edges := Filter(c.edges, WireKept(keep)),
       workflow := if c.workflow.Some? then Some(c.workflow.value.(edges := Filter(c.workflow.value.edges, keep)))
         else None)
  }

  // ----- nodes -----

  function UpdateNodes(nodes: seq<CanvasNode>, id: string, f: CanvasNode -> CanvasNode): seq<CanvasNode> {
    seq(|nodes|, i requires 0 <= i < |nodes| => if nodes[i].id == id then f(nodes[i]) else nodes[i])
  }

  function UpdateWorkflow(w: Option<WorkflowGraph>, id: string, f: GraphNode -> GraphNode): Option<WorkflowGraph> {
    if w.Some? && id in w.value.nodes then Some(w.value.(nodes := w.value.nodes[id := f(w.value.nodes[id])])) else w
  }

  function At(pos: Point): CanvasNode -> CanvasNode { (n: CanvasNode) => n.(position := pos) }
  function Sized(extent: Point): CanvasNode -> CanvasNode { (n: CanvasNode) => n.(size := Some(extent)) }
  function Summarized(key: string, value: Value): CanvasNode -> CanvasNode {
    (n: CanvasNode) => n.(summary := ParamSet(key, value))
  }

  function PlacedAt(pos: Point): GraphNode -> GraphNode { (n: GraphNode) => n.(pos := pos) }
  function SizedTo(extent: Point): GraphNode -> GraphNode { (n: GraphNode) => n.(size := Some(extent)) }
  function Bound(semantics: Option<Semantics>): GraphNode -> GraphNode { (n: GraphNode) => n.(semantics := semantics) }
  function WithParam(key: string, value: Value): GraphNode -> GraphNode {
    (n: GraphNode) => n.(params := Obj((if n.params.Obj? then n.params.fields else map[])[key := value]))
  }

  function NotNamed(id: string): CanvasNode -> bool { (n: CanvasNode) => n.id != id }

  function NodeTypeOf(nodes: seq<CanvasNode>, id: string): Option<string> {
    if nodes == [] then None
    else if nodes[0].id == id then Some(nodes[0].nodeType)
    else NodeTypeOf(nodes[1..], id)
  }

  function SourceType(c: Canvas, id: string): Option<string> {
    var shown := NodeTypeOf(c.nodes, id);
    if shown.Some? then shown
    else if c.workflow.Some? && id in c.workflow.value.nodes then Some(c.workflow.value.nodes[id].nodeType)
    else None
  }

  // ----- spawning -----

  predicate IsSpace(ch: char) {
    '\t' <= ch <= '\r' || ch == ' ' || ch == '\U{A0}' || ch == '\U{1680}' || '\U{2000}' <= ch <= '\U{200A}'
    || ch in {'\U{2028}', '\U{2029}', '\U{202F}', '\U{205F}', '\U{3000}', '\U{FEFF}'}
  }

  function TrimLeft(s: string): string { if s != [] && IsSpace(s[0]) then TrimLeft(s[1..]) else s }
  function TrimRight(s: string): string {
    if s != [] && IsSpace(s[|s| - 1]) then TrimRight(s[..|s| - 1]) else s
  }

  function SpawnTitle(op: EditOp): string
    requires op.Spawn?
  {
    if op.title.Some? && TrimRight(TrimLeft(op.title.value)) != [] then TrimRight(TrimLeft(op.title.value)) else op.id
  }

  function Prefix(s: string): string { if s == [] || s[0] == '.' then [] else [s[0]] + Prefix(s[1..]) }

  function Category(nodeType: string): string {
    var prefix := Prefix(nodeType);
    if prefix == "input" then "Input"
    else if prefix == "output" then "Output"
    else if prefix == "llm" then "Text"
    else if prefix == "image" then "Image"
    else if prefix == "video" then "Video"
    else "Node"
  }

  /** The spawned node replaces any node of its id and comes last. */
  function WithSpawned(c: Canvas, op: EditOp): Canvas
    requires op.Spawn?
  {
    var title := SpawnTitle(op);
    c.(nodes := Filter(c.nodes, NotNamed(op.id))
         + [CanvasNode(
              op.id, op.nodeType, title, Category(op.nodeType), "queued", op.at, None, None, Plain(op.nodeType))],
       workflow := if c.workflow.Some?
         then Some(c.workflow.value.(
           nodes := c.workflow.value.nodes[op.id := GraphNode(op.nodeType, title, op.params, op.at, None, None)]))
         else None)
  }

  function SpawnEdge(op: EditOp, source: string, m: LineageMatch): GraphEdge
    requires op.Spawn?
  {
    GraphEdge(Port(source, m.sourcePort), Port(op.id, m.targetPort), m.edgeType)
  }

  function DoSpawn(lineage: Lineage, c: Canvas, op: EditOp): Result<Canvas, EditError>
    requires op.Spawn?
  {
    var spawned := WithSpawned(c, op);
    if op.source.None? || op.source.value == "" then Ok(spawned) else
      var source := op.source.value;
      var sourceType := SourceType(spawned, source);
      if sourceType.None? || sourceType.value == "" then Err(SourceMissing(source))
      else
        var m := lineage(sourceType.value, op.nodeType);
        if m.None? then Err(NoLineage(sourceType.value, op.nodeType))
        else Ok(Connected(spawned, SpawnEdge(op, source, m.value)))
  }

  // ----- the interpreter -----

  function DoRemove(c: Canvas, id: string): Canvas {
    var kept := KeepEdges(c, Avoiding({id}));
    kept.(nodes := Filter(c.nodes, NotNamed(id)),
          workflow := if kept.workflow.Some?
            then Some(kept.workflow.value.(nodes := kept.workflow.value.nodes - {id})) else None)
  }

  function Step(lineage: Lineage, c: Canvas, op: EditOp): Result<Canvas, EditError> {
    match op
    case Move(id, pos) =>
      Ok(c.(nodes := UpdateNodes(c.nodes, id, At(pos)), workflow := UpdateWorkflow(c.workflow, id, PlacedAt(pos))))
    case Resize(id, extent) =>
      Ok(c.(
        nodes := UpdateNodes(c.nodes, id, Sized(extent)),
        workflow := UpdateWorkflow(c.workflow, id, SizedTo(extent))))
    case SetSemanticsOf(id, semantics) => Ok(c.(workflow := UpdateWorkflow(c.workflow, id, Bound(semantics))))
    case SetParamOf(id, key, value) =>
      Ok(c.(nodes := UpdateNodes(c.nodes, id, Summarized(key, value)),
            workflow := UpdateWorkflow(c.workflow, id, WithParam(key, value))))
    case Spawn(_, _, _, _, _, _) => DoSpawn(lineage, c, op)
    case Remove(id) => Ok(DoRemove(c, id))
    case Connect(from, to, kind) => Ok(Connected(c, GraphEdge(from, to, kind)))
    case Disconnect(from, to, kind) => Ok(KeepEdges(c, OtherSignature(Signature(GraphEdge(from, to, kind)))))
  }

  function Last<T>(xs: seq<T>): T
    requires xs != []
  {
    xs[|xs| - 1]
  }

  function Init<T>(xs: seq<T>): seq<T>
    requires xs != []
  {
    xs[..|xs| - 1]
  }

  /** The first throw ends the preview. */
  function Preview(lineage: Lineage, c: Canvas, ops: seq<EditOp>): Result<Canvas, EditError> {
    if ops == [] then Ok(c) else
      match Preview(lineage, c, Init(ops))
      case Err(e) => Err(e)
      case Ok(before) => Step(lineage, before, Last(ops))
  }

  lemma {:induction false} ErrorStays(lineage: Lineage, c: Canvas, ops: seq<EditOp>, n: nat)
    requires n <= |ops| && Preview(lineage, c, ops[..n]).Err?
    ensures Preview(lineage, c, ops) == Preview(lineage, c, ops[..n])
    decreases |ops|
  {
    if n == |ops| {
      assert ops[..n] == ops;
    } else {
      assert Init(ops)[..n] == ops[..n];
      ErrorStays(lineage, c, Init(ops), n);
    }
  }

  /** The loop over the session's operations, on local copies of both representations. The
      clone of the workflow graph does not carry the catalog revision. */
  method PreviewEdits(lineage: Lineage, canvas: Canvas, ops: seq<EditOp>) returns (r: Result<Canvas, EditError>)
    ensures r == Preview(lineage, Cloned(canvas), ops)
  {
    var nodes, edges := canvas.nodes, canvas.edges;
    var workflow := Cloned(canvas).workflow;
    for i := 0 to |ops|
      invariant Preview(lineage, Cloned(canvas), ops[..i]) == Ok(Canvas(nodes, edges, workflow))
    {
      var op := ops[i];
      assert Init(ops[..i + 1]) == ops[..i] && Last(ops[..i + 1]) == op;
      if op.Move? {
        nodes := UpdateNodes(nodes, op.id, At(op.pos));
        workflow := UpdateWorkflow(workflow, op.id, PlacedAt(op.pos));
      } else if op.Resize? {
        nodes := UpdateNodes(nodes, op.id, Sized(op.extent));
        workflow := UpdateWorkflow(workflow, op.id, SizedTo(op.extent));
      } else if op.SetSemanticsOf? {
        workflow := UpdateWorkflow(workflow, op.id, Bound(op.semantics));
      } else if op.SetParamOf? {
        workflow := UpdateWorkflow(workflow, op.id, WithParam(op.key, op.value));
        nodes := UpdateNodes(nodes, op.id, Summarized(op.key, op.value));
      } else if op.Spawn? {
        var next := DoSpawn(lineage, Canvas(nodes, edges, workflow), op);
        if next.Err? {
          ErrorStays(lineage, Cloned(canvas), ops, i + 1);
          return Err(next.error);
        }
        nodes, edges, workflow := next.value.nodes, next.value.edges, next.value.workflow;
      } else if op.Remove? {
        nodes := Filter(nodes, NotNamed(op.id));
        edges := Filter(edges, WireKept(Avoiding({op.id})));
        if workflow.Some? {
          var w := workflow.value;
          workflow := Some(w.(nodes := w.nodes - {op.id}, edges := Filter(w.edges, Avoiding({op.id}))));
        }
      } else if op.Connect? {
        var e := GraphEdge(op.from, op.to, op.kind);
        edges := AddCanvasEdge(edges, e);
        if workflow.Some? {
          workflow := Some(workflow.value.(edges := AddWire(workflow.value.edges, e)));
        }
      } else {
        var keep := OtherSignature(Signature(GraphEdge(op.from, op.to, op.kind)));
        edges := Filter(edges, WireKept(keep));
        if workflow.Some? {
          workflow := Some(workflow.value.(edges := Filter(workflow.value.edges, keep)));
        }
      }
    }
    assert ops[..|ops|] == ops;
    return Ok(Canvas(nodes, edges, workflow));
  }

  function Cloned(c: Canvas): Canvas {
    c.(workflow := if c.workflow.Some? then Some(c.workflow.value.(catalogRevision := None)) else None)
  }

  // ----- the split -----

  datatype Entry = Entry(id: string, value: Point)
  datatype Snapshot = Snapshot(positions: Option<seq<Entry>>, sizes: Option<seq<Entry>>)

  /** A JavaScript `Map`: a key keeps the place where it was first set. */
  function Upsert(entries: seq<Entry>, id: string, value: Point): seq<Entry> {
    if entries == [] then [Entry(id, value)]
    else if entries[0].id == id then [Entry(id, value)] + entries[1..]
    else [entries[0]] + Upsert(entries[1..], id, value)
  }

  function GraphOps(ops: seq<EditOp>): seq<EditOp> {
    if ops == [] then []
    else if Last(ops).Move? || Last(ops).Resize? then GraphOps(Init(ops))
    else GraphOps(Init(ops)) + [Last(ops)]
  }

  function Positions(ops: seq<EditOp>): seq<Entry> {
    if ops == [] then []
    else if Last(ops).Move? then Upsert(Positions(Init(ops)), Last(ops).id, Last(ops).pos)
    else Positions(Init(ops))
  }

  function Sizes(ops: seq<EditOp>): seq<Entry> {
    if ops == [] then []
    else if Last(ops).Resize? then Upsert(Sizes(Init(ops)), Last(ops).id, Last(ops).extent)
    else Sizes(Init(ops))
  }

  function ToSnapshot(positions: seq<Entry>, sizes: seq<Entry>): Option<Snapshot> {
    if positions == [] && sizes == [] then None
    else Some(Snapshot(
      if positions != [] then Some(positions) else None,
      if sizes != [] then Some(sizes) else None))
  }

  method Partition(ops: seq<EditOp>) returns (graphOps: seq<EditOp>, snapshot: Option<Snapshot>)
    ensures graphOps == GraphOps(ops)
    ensures snapshot == ToSnapshot(Positions(ops), Sizes(ops))
  {
    graphOps := [];
    var positions: seq<Entry>, sizes: seq<Entry> := [], [];
    for i := 0 to |ops|
      invariant graphOps == GraphOps(ops[..i])
      invariant positions == Positions(ops[..i]) && sizes == Sizes(ops[..i])
    {
      var op := ops[i];
      assert Init(ops[..i + 1]) == ops[..i] && Last(ops[..i + 1]) == op;
      if op.Move? {
        positions := Upsert(positions, op.id, op.pos);
      } else if op.Resize? {
        sizes := Upsert(sizes, op.id, op.extent);
      } else {
        graphOps := graphOps + [op];
      }
    }
    assert ops[..|ops|] == ops;
    snapshot := ToSnapshot(positions, sizes);
  }

  function Moves(entries: seq<Entry>): seq<EditOp> {
    seq(|entries|, i requires 0 <= i < |entries| => Move(entries[i].id, entries[i].value))
  }

  function Resizes(entries: seq<Entry>): seq<EditOp> {
    seq(|entries|, i requires 0 <= i < |entries| => Resize(entries[i].id, entries[i].value))
  }

  function EntriesOr(o: Option<seq<Entry>>): seq<Entry> { if o.Some? then o.value else [] }

  function LayoutOps(snapshot: Snapshot): seq<EditOp> {
    Moves(EntriesOr(snapshot.positions)) + Resizes(EntriesOr(snapshot.sizes))
  }
}
