/** JSON values as serde_json holds them: an object is an ordered map from keys. */
module Json {
  datatype Value =
    | Null
    | Bool(b: bool)
    | Num(n: int)
    | Str(s: string)
    | Arr(items: seq<Value>)
    | Obj(fields: map<string, Value>)
}

/** The workflow graph and the operations a proposal carries (crates/graph/src/lib.rs). */
module Graph {
  import opened Json
  import opened Ordering
  import opened Seqs

  datatype Result<+T, +E> = Ok(value: T) | Err(error: E)

  datatype Point = Point(x: int, y: int)
  datatype Port = Port(node: string, name: string)
  datatype GraphEdge = GraphEdge(from: Port, to: Port, edgeType: string)

  datatype Implementation =
    | Pinned(requestedModelId: string, bindingId: string)
    | Policy(policyId: string, constraints: Value)
  datatype Semantics = Semantics(capabilityId: string, mode: string, implementation: Implementation)

  datatype GraphNode = GraphNode(
    nodeType: string,
    title: string,
    params: Value,
    pos: Point,
    size: Option<Point>,
    semantics: Option<Semantics>)

  datatype WorkflowGraph = WorkflowGraph(
    schemaVersion: int,
    catalogRevision: Option<string>,
    nodes: map<string, GraphNode>,
    edges: seq<GraphEdge>)

  datatype ProposalOp =
    | AddNode(id: string, node: GraphNode)
    | RemoveNode(id: string)
    | SetParam(id: string, key: string, prev: Option<Value>, value: Value)
    | AddEdge(edge: GraphEdge)
    | RemoveEdge(edge: GraphEdge)
    | MoveNode(id: string, pos: Point)
    | ResizeNode(id: string, size: Point)
    | SetSemantics(id: string, semantics: Option<Semantics>)

  datatype GraphError =
    | DuplicateNode(id: string)
    | MissingNode(id: string)
    | MissingEdge(edge: GraphEdge)
    | ParamsNotObject(id: string)
    | SetParamConflict(id: string, key: string)
    | MissingEndpoint(id: string)
    | CycleDetected

  predicate Touches(edge: GraphEdge, ids: set<string>) {
    edge.from.node in ids || edge.to.node in ids
  }

  function OtherThan(edge: GraphEdge): GraphEdge -> bool { e => e != edge }
  function Avoiding(ids: set<string>): GraphEdge -> bool { e => !Touches(e, ids) }
  function NotIn(es: seq<GraphEdge>): GraphEdge -> bool { e => e !in es }
  function AlsoIn(es: seq<GraphEdge>): GraphEdge -> bool { e => e in es }

  function Lookup(m: map<string, Value>, key: string): Option<Value> {
    if key in m then Some(m[key]) else None
  }

  /** One operation on a candidate graph. An error leaves no graph: the caller
      discards the candidate. */
  function ApplyOp(g: WorkflowGraph, op: ProposalOp): Result<WorkflowGraph, GraphError> {
    match op
    case AddNode(id, node) =>
      if id in g.nodes then Err(DuplicateNode(id)) else Ok(g.(nodes := g.nodes[id := node]))
    case RemoveNode(id) =>
      if id !in g.nodes then Err(MissingNode(id))
      else Ok(g.(nodes := g.nodes - {id}, edges := Filter(g.edges, Avoiding({id}))))
    case SetParam(id, key, prev, value) =>
      if id !in g.nodes then Err(MissingNode(id))
      else if !g.nodes[id].params.Obj? then Err(ParamsNotObject(id))
      else
        var fields := g.nodes[id].params.fields;
        if prev.Some? && Lookup(fields, key) != prev then Err(SetParamConflict(id, key))
        else Ok(g.(nodes := g.nodes[id := g.nodes[id].(params := Obj(fields[key := value]))]))
    case AddEdge(edge) => Ok(g.(edges := g.edges + [edge]))
    case RemoveEdge(edge) =>
      var kept := Filter(g.edges, OtherThan(edge));
      if |kept| == |g.edges| then Err(MissingEdge(edge)) else Ok(g.(edges := kept))
    case MoveNode(id, pos) =>
      if id !in g.nodes then Err(MissingNode(id))
      else Ok(g.(nodes := g.nodes[id := g.nodes[id].(pos := pos)]))
    case ResizeNode(id, size) =>
      if id !in g.nodes then Err(MissingNode(id))
      else Ok(g.(nodes := g.nodes[id := g.nodes[id].(size := Some(size))]))
    case SetSemantics(id, semantics) =>
      if id !in g.nodes then Err(MissingNode(id))
      else Ok(g.(nodes := g.nodes[id := g.nodes[id].(semantics := semantics)]))
  }

  /** The first error wins; otherwise every operation took effect in order. */
  function ApplyOps(g: WorkflowGraph, ops: seq<ProposalOp>): Result<WorkflowGraph, GraphError>
    decreases |ops|
  {
    if ops == [] then Ok(g) else
      match ApplyOp(g, ops[0])
      case Err(e) => Err(e)
      case Ok(next) => ApplyOps(next, ops[1..])
  }

  /** The loop of `apply_ops`, which mutates one clone of the base graph. */
  method ApplyAll(base: WorkflowGraph, ops: seq<ProposalOp>) returns (r: Result<WorkflowGraph, GraphError>)
    ensures r == ApplyOps(base, ops)
  {
    var graph := base;
    for i := 0 to |ops|
      invariant ApplyOps(base, ops) == ApplyOps(graph, ops[i..])
    {
      var step := ApplyOp(graph, ops[i]);
      assert ops[i..][1..] == ops[i + 1..];
      match step {
        case Err(e) => return Err(e);
        case Ok(next) => graph := next;
      }
    }
    return Ok(graph);
  }

  lemma {:induction false} ApplyAppend(g: WorkflowGraph, a: seq<ProposalOp>, b: seq<ProposalOp>)
    ensures ApplyOps(g, a).Err? ==> ApplyOps(g, a + b) == ApplyOps(g, a)
    ensures ApplyOps(g, a).Ok? ==> ApplyOps(g, a + b) == ApplyOps(ApplyOps(g, a).value, b)
    decreases |a|
  {
    if a == [] {
      assert a + b == b;
    } else {
      assert (a + b)[1..] == a[1..] + b;
      match ApplyOp(g, a[0]) {
        case Err(_) =>
        case Ok(next) => ApplyAppend(next, a[1..], b);
      }
    }
  }

  /** `retain` shortens the list exactly when the edge was there. */
  lemma {:induction false} RetainShortens(es: seq<GraphEdge>, edge: GraphEdge)
    ensures |Filter(es, OtherThan(edge))| <= |es|
    ensures |Filter(es, OtherThan(edge))| == |es| <==> edge !in es
  {
    if es != [] {
      RetainShortens(es[1..], edge);
    }
  }
}
