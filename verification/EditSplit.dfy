/** When splitting a session into graph operations and a collapsed layout snapshot keeps
    its meaning: exactly when no stale layout survives. */
module EditSplit {
  import opened Json
  import opened Ordering
  import opened Seqs
  import opened Graph
  import opened ManualEdit

  type Layout = map<string, Point>

  // ----- a canvas with a layout laid over it -----

  function LaidNode(n: CanvasNode, pos: Layout, size: Layout): CanvasNode {
    n.(position := if n.id in pos then pos[n.id] else n.position,
       size := if n.id in size then Some(size[n.id]) else n.size)
  }

  function LaidNodes(ns: seq<CanvasNode>, pos: Layout, size: Layout): seq<CanvasNode> {
    seq(|ns|, i requires 0 <= i < |ns| => LaidNode(ns[i], pos, size))
  }

  function LaidGraphNode(id: string, n: GraphNode, pos: Layout, size: Layout): GraphNode {
    n.(pos := if id in pos then pos[id] else n.pos, size := if id in size then Some(size[id]) else n.size)
  }

  function LaidWorkflow(w: Option<WorkflowGraph>, pos: Layout, size: Layout): Option<WorkflowGraph> {
    if w.None? then None
    else Some(w.value.(nodes := map id | id in w.value.nodes :: LaidGraphNode(id, w.value.nodes[id], pos, size)))
  }

  function Laid(c: Canvas, pos: Layout, size: Layout): Canvas {
    Canvas(LaidNodes(c.nodes, pos, size), c.edges, LaidWorkflow(c.workflow, pos, size))
  }

  lemma LaidNothing(c: Canvas)
    ensures Laid(c, map[], map[]) == c
  {
    assert LaidNodes(c.nodes, map[], map[]) == c.nodes;
    if c.workflow.Some? {
      var nodes := c.workflow.value.nodes;
      assert (map id | id in nodes :: LaidGraphNode(id, nodes[id], map[], map[])) == nodes;
    }
  }

  lemma LaidMove(c: Canvas, pos: Layout, size: Layout, id: string, p: Point, lineage: Lineage)
    ensures Step(lineage, Laid(c, pos, size), Move(id, p)) == Ok(Laid(c, pos[id := p], size))
  {
    assert UpdateNodes(LaidNodes(c.nodes, pos, size), id, At(p)) == LaidNodes(c.nodes, pos[id := p], size);
    if c.workflow.Some? {
      assert UpdateWorkflow(LaidWorkflow(c.workflow, pos, size), id, PlacedAt(p)).value.nodes
          == LaidWorkflow(c.workflow, pos[id := p], size).value.nodes;
    }
  }

  lemma LaidResize(c: Canvas, pos: Layout, size: Layout, id: string, p: Point, lineage: Lineage)
    ensures Step(lineage, Laid(c, pos, size), Resize(id, p)) == Ok(Laid(c, pos, size[id := p]))
  {
    assert UpdateNodes(LaidNodes(c.nodes, pos, size), id, Sized(p)) == LaidNodes(c.nodes, pos, size[id := p]);
    if c.workflow.Some? {
      assert UpdateWorkflow(LaidWorkflow(c.workflow, pos, size), id, SizedTo(p)).value.nodes
          == LaidWorkflow(c.workflow, pos, size[id := p]).value.nodes;
    }
  }

  lemma LaidParam(
    c: Canvas, pos: Layout, size: Layout, id: string, key: string, value: Value, lineage: Lineage)
    ensures var op := SetParamOf(id, key, value);
      && Step(lineage, c, op).Ok?
      && Step(lineage, Laid(c, pos, size), op) == Ok(Laid(Step(lineage, c, op).value, pos, size))
  {
    var f, g := Summarized(key, value), WithParam(key, value);
    assert UpdateNodes(LaidNodes(c.nodes, pos, size), id, f) == LaidNodes(UpdateNodes(c.nodes, id, f), pos, size);
    if c.workflow.Some? {
      assert UpdateWorkflow(LaidWorkflow(c.workflow, pos, size), id, g).value.nodes
          == LaidWorkflow(UpdateWorkflow(c.workflow, id, g), pos, size).value.nodes;
    }
  }

  lemma LaidSemantics(
    c: Canvas, pos: Layout, size: Layout, id: string, semantics: Option<Semantics>, lineage: Lineage)
    ensures var op := SetSemanticsOf(id, semantics);
      && Step(lineage, c, op).Ok?
      && Step(lineage, Laid(c, pos, size), op) == Ok(Laid(Step(lineage, c, op).value, pos, size))
  {
    var g := Bound(semantics);
    if c.workflow.Some? {
      assert UpdateWorkflow(LaidWorkflow(c.workflow, pos, size), id, g).value.nodes
          == LaidWorkflow(UpdateWorkflow(c.workflow, id, g), pos, size).value.nodes;
    }
  }

  lemma LaidTail(ns: seq<CanvasNode>, pos: Layout, size: Layout)
    requires ns != []
    ensures LaidNodes(ns, pos, size)[1..] == LaidNodes(ns[1..], pos, size)
  {}

  lemma {:induction false} LaidFilter(ns: seq<CanvasNode>, pos: Layout, size: Layout, id: string)
    ensures Filter(LaidNodes(ns, pos, size), NotNamed(id)) == LaidNodes(Filter(ns, NotNamed(id)), pos, size)
  {
    if ns != [] {
      LaidFilter(ns[1..], pos, size, id);
      LaidTail(ns, pos, size);
      var rest := Filter(ns[1..], NotNamed(id));
      assert LaidNodes([ns[0]] + rest, pos, size) == [LaidNode(ns[0], pos, size)] + LaidNodes(rest, pos, size);
    }
  }

  lemma {:induction false} LaidTypes(ns: seq<CanvasNode>, pos: Layout, size: Layout, id: string)
    ensures NodeTypeOf(LaidNodes(ns, pos, size), id) == NodeTypeOf(ns, id)
  {
    if ns != [] {
      LaidTypes(ns[1..], pos, size, id);
      LaidTail(ns, pos, size);
    }
  }

  lemma LaidConnected(c: Canvas, pos: Layout, size: Layout, e: GraphEdge)
    ensures Connected(Laid(c, pos, size), e) == Laid(Connected(c, e), pos, size)
  {}

  lemma LaidKeepEdges(c: Canvas, pos: Layout, size: Layout, keep: GraphEdge -> bool)
    ensures KeepEdges(Laid(c, pos, size), keep) == Laid(KeepEdges(c, keep), pos, size)
  {}

  lemma LaidRemove(c: Canvas, pos: Layout, size: Layout, id: string)
    ensures DoRemove(Laid(c, pos, size), id) == Laid(DoRemove(c, id), pos, size)
  {
    LaidFilter(c.nodes, pos, size, id);
    if c.workflow.Some? {
      var a, b := DoRemove(Laid(c, pos, size), id).workflow.value, Laid(DoRemove(c, id), pos, size).workflow.value;
      assert a.nodes == b.nodes;
    }
  }

  /** A spawned node takes its own position and size, so its id leaves the layout. */
  lemma LaidSpawned(c: Canvas, pos: Layout, size: Layout, op: EditOp)
    requires op.Spawn?
    ensures WithSpawned(Laid(c, pos, size), op) == Laid(WithSpawned(c, op), pos - {op.id}, size - {op.id})
  {
    LaidFilter(c.nodes, pos, size, op.id);
    var a, b := WithSpawned(Laid(c, pos, size), op), Laid(WithSpawned(c, op), pos - {op.id}, size - {op.id});
    LaidSpawnedNodes(Filter(c.nodes, NotNamed(op.id)), WithSpawned(c, op).nodes, pos, size, op.id);
    if c.workflow.Some? {
      assert a.workflow.value.nodes == b.workflow.value.nodes;
    }
  }

  lemma LaidSpawnedNodes(
    kept: seq<CanvasNode>, all: seq<CanvasNode>, pos: Layout, size: Layout, id: string)
    requires forall n | n in kept :: n.id != id
    requires |all| == |kept| + 1 && all[..|kept|] == kept && all[|kept|].id == id
    ensures LaidNodes(kept, pos, size) + [all[|kept|]] == LaidNodes(all, pos - {id}, size - {id})
  {
    forall i | 0 <= i < |kept| ensures LaidNode(kept[i], pos, size) == LaidNode(all[i], pos - {id}, size - {id}) {
      assert all[i] == all[..|kept|][i] && kept[i] in kept;
    }
  }

  lemma LaidSpawn(c: Canvas, pos: Layout, size: Layout, op: EditOp, lineage: Lineage)
    requires op.Spawn?
    ensures var r, laid := DoSpawn(lineage, c, op), DoSpawn(lineage, Laid(c, pos, size), op);
      && (r.Err? ==> laid == r)
      && (r.Ok? ==> laid == Ok(Laid(r.value, pos - {op.id}, size - {op.id})))
  {
    var spawned := WithSpawned(c, op);
    LaidSpawned(c, pos, size, op);
    if op.source.Some? && op.source.value != "" {
      var source := op.source.value;
      LaidTypes(spawned.nodes, pos - {op.id}, size - {op.id}, source);
      var sourceType := SourceType(spawned, source);
      assert SourceType(Laid(spawned, pos - {op.id}, size - {op.id}), source) == sourceType;
      if sourceType.Some? && lineage(sourceType.value, op.nodeType).Some? {
        LaidConnected(spawned, pos - {op.id}, size - {op.id},
          SpawnEdge(op, source, lineage(sourceType.value, op.nodeType).value));
      }
    }
  }

  // ----- which layout survives -----

  /** The last move and resize of each id, and those overtaken by a later spawn of it: a
      stale move remembers where the spawn put the node. */
  datatype Track = Track(moved: Layout, overtaken: Layout, resized: Layout, overtakenSizes: set<string>)

  function Advance(t: Track, op: EditOp): Track {
    match op
    case Move(id, p) => t.(moved := t.moved[id := p], overtaken := t.overtaken - {id})
    case Resize(id, p) => t.(resized := t.resized[id := p], overtakenSizes := t.overtakenSizes - {id})
    case Spawn(id, _, _, _, at, _) =>
      t.(overtaken := if id in t.moved then t.overtaken[id := at] else t.overtaken,
         overtakenSizes := if id in t.resized then t.overtakenSizes + {id} else t.overtakenSizes)
    case Remove(id) => t.(overtaken := t.overtaken - {id}, overtakenSizes := t.overtakenSizes - {id})
    case _ => t
  }

  function TrackOf(ops: seq<EditOp>): Track {
    if ops == [] then Track(map[], map[], map[], {}) else Advance(TrackOf(Init(ops)), Last(ops))
  }

  /** No surviving node was moved or resized and then spawned anew, unless the spawn put it
      where the move had. */
  predicate LayoutSafe(ops: seq<EditOp>) {
    var t := TrackOf(ops);
    t.overtakenSizes == {} && forall id | id in t.overtaken :: id in t.moved && t.overtaken[id] == t.moved[id]
  }

  function Held(t: Track): Layout { t.moved - t.overtaken.Keys }
  function HeldSizes(t: Track): Layout { t.resized - t.overtakenSizes }

  /** Overtaken ids are on the canvas, with the position of their last spawn and no size. */
  ghost predicate OvertakenHeld(c: Canvas, t: Track) {
    && (forall id | id in t.overtaken :: id in t.moved && Shows(c.nodes, id) && PlacedThere(c, id, t.overtaken[id]))
    && (forall id | id in t.overtakenSizes :: id in t.resized && Shows(c.nodes, id) && Unsized(c, id))
  }

  ghost predicate Shows(ns: seq<CanvasNode>, id: string) { exists n | n in ns :: n.id == id }

  ghost predicate PlacedThere(c: Canvas, id: string, p: Point) {
    && (forall n | n in c.nodes && n.id == id :: n.position == p)
    && (c.workflow.Some? && id in c.workflow.value.nodes ==> c.workflow.value.nodes[id].pos == p)
  }

  ghost predicate Unsized(c: Canvas, id: string) {
    && (forall n | n in c.nodes && n.id == id :: n.size == None)
    && (c.workflow.Some? && id in c.workflow.value.nodes ==> c.workflow.value.nodes[id].size == None)
  }

  // ----- the graph operations alone, with the surviving layout on top -----

  ghost predicate Follows(a: Canvas, b: Canvas, t: Track) {
    a == Laid(b, Held(t), HeldSizes(t)) && OvertakenHeld(b, t)
  }

  /** Both throw the same error, or neither does and the first follows the second. */
  ghost predicate BothFollow(a: Result<Canvas, EditError>, b: Result<Canvas, EditError>, t: Track) {
    if b.Err? then a == b else a.Ok? && Follows(a.value, b.value, t)
  }

  lemma FollowsMove(lineage: Lineage, a: Canvas, b: Canvas, t: Track, op: EditOp)
    requires Follows(a, b, t) && (op.Move? || op.Resize?)
    ensures Step(lineage, a, op).Ok? && Follows(Step(lineage, a, op).value, b, Advance(t, op))
  {
    if op.Move? {
      LaidMove(b, Held(t), HeldSizes(t), op.id, op.pos, lineage);
      assert Held(Advance(t, op)) == Held(t)[op.id := op.pos];
    } else {
      LaidResize(b, Held(t), HeldSizes(t), op.id, op.extent, lineage);
      assert HeldSizes(Advance(t, op)) == HeldSizes(t)[op.id := op.extent];
    }
  }

  lemma FollowsParam(lineage: Lineage, a: Canvas, b: Canvas, t: Track, op: EditOp)
    requires Follows(a, b, t) && (op.SetParamOf? || op.SetSemanticsOf?)
    ensures Step(lineage, a, op).Ok? && Step(lineage, b, op).Ok?
    ensures Follows(Step(lineage, a, op).value, Step(lineage, b, op).value, Advance(t, op))
  {
    if op.SetParamOf? {
      LaidParam(b, Held(t), HeldSizes(t), op.id, op.key, op.value, lineage);
    } else {
      LaidSemantics(b, Held(t), HeldSizes(t), op.id, op.semantics, lineage);
    }
    ParamKeepsLayout(lineage, b, op);
    SameLayoutHolds(b, Step(lineage, b, op).value, t);
  }

  lemma ParamKeepsLayout(lineage: Lineage, b: Canvas, op: EditOp)
    requires op.SetParamOf? || op.SetSemanticsOf?
    ensures Step(lineage, b, op).Ok? && SameLayout(b, Step(lineage, b, op).value)
  {
  }

  /** Same nodes at the same places, whatever else changed. */
  ghost predicate SameLayout(b: Canvas, next: Canvas) {
    && |b.nodes| == |next.nodes|
    && (forall i | 0 <= i < |b.nodes| ::
          next.nodes[i].id == b.nodes[i].id && next.nodes[i].position == b.nodes[i].position
            && next.nodes[i].size == b.nodes[i].size)
    && (next.workflow.Some? <==> b.workflow.Some?)
    && (b.workflow.Some? && next.workflow.Some? ==>
          && next.workflow.value.nodes.Keys == b.workflow.value.nodes.Keys
          && forall id | id in b.workflow.value.nodes ::
              && next.workflow.value.nodes[id].pos == b.workflow.value.nodes[id].pos
              && next.workflow.value.nodes[id].size == b.workflow.value.nodes[id].size)
  }

  lemma SameLayoutHolds(b: Canvas, next: Canvas, t: Track)
    requires SameLayout(b, next) && OvertakenHeld(b, t)
    ensures OvertakenHeld(next, t)
  {
    forall id | id in t.overtaken ensures Shows(next.nodes, id) && PlacedThere(next, id, t.overtaken[id]) {
      SameShown(b, next, id);
      SamePlace(b, next, id, t.overtaken[id]);
    }
    forall id | id in t.overtakenSizes ensures Shows(next.nodes, id) && Unsized(next, id) {
      SameShown(b, next, id);
      SameSize(b, next, id);
    }
  }

  lemma SameShown(b: Canvas, next: Canvas, id: string)
    requires SameLayout(b, next) && Shows(b.nodes, id)
    ensures Shows(next.nodes, id)
  {
    var i :| 0 <= i < |b.nodes| && b.nodes[i].id == id;
    assert next.nodes[i] in next.nodes;
  }

  lemma SamePlace(b: Canvas, next: Canvas, id: string, p: Point)
    requires SameLayout(b, next) && PlacedThere(b, id, p)
    ensures PlacedThere(next, id, p)
  {
    forall n | n in next.nodes && n.id == id ensures n.position == p {
      var i :| 0 <= i < |next.nodes| && next.nodes[i] == n;
      assert b.nodes[i] in b.nodes;
    }
  }

  lemma SameSize(b: Canvas, next: Canvas, id: string)
    requires SameLayout(b, next) && Unsized(b, id)
    ensures Unsized(next, id)
  {
    forall n | n in next.nodes && n.id == id ensures n.size == None {
      var i :| 0 <= i < |next.nodes| && next.nodes[i] == n;
      assert b.nodes[i] in b.nodes;
    }
  }

  lemma FollowsEdges(lineage: Lineage, a: Canvas, b: Canvas, t: Track, op: EditOp)
    requires Follows(a, b, t) && (op.Connect? || op.Disconnect?)
    ensures Step(lineage, a, op).Ok? && Step(lineage, b, op).Ok?
    ensures Follows(Step(lineage, a, op).value, Step(lineage, b, op).value, Advance(t, op))
  {
    var e := GraphEdge(op.from, op.to, op.kind);
    if op.Connect? {
      LaidConnected(b, Held(t), HeldSizes(t), e);
    } else {
      LaidKeepEdges(b, Held(t), HeldSizes(t), OtherSignature(Signature(e)));
    }
    SameLayoutHolds(b, Step(lineage, b, op).value, t);
  }

  /** Two layouts that agree on every node of a canvas lay it out alike. */
  lemma {:induction false} LaidAgrees(c: Canvas, pos: Layout, size: Layout, otherPos: Layout, otherSize: Layout)
    requires forall n | n in c.nodes :: LaidNode(n, pos, size) == LaidNode(n, otherPos, otherSize)
    requires c.workflow.Some? ==>
      var nodes := c.workflow.value.nodes;
      forall id | id in nodes ::
        LaidGraphNode(id, nodes[id], pos, size) == LaidGraphNode(id, nodes[id], otherPos, otherSize)
    ensures Laid(c, pos, size) == Laid(c, otherPos, otherSize)
  {
    assert forall i | 0 <= i < |c.nodes| :: c.nodes[i] in c.nodes;
    assert LaidNodes(c.nodes, pos, size) == LaidNodes(c.nodes, otherPos, otherSize);
    if c.workflow.Some? {
      var laid, other := LaidWorkflow(c.workflow, pos, size).value, LaidWorkflow(c.workflow, otherPos, otherSize).value;
      assert laid.nodes == other.nodes;
    }
  }

  lemma RemovedHeld(b: Canvas, t: Track, id: string)
    requires OvertakenHeld(b, t)
    ensures OvertakenHeld(DoRemove(b, id), Advance(t, Remove(id)))
  {
    var next := DoRemove(b, id);
    forall x | x != id && Shows(b.nodes, x) ensures Shows(next.nodes, x) {
      var n :| n in b.nodes && n.id == x;
      assert n in next.nodes;
    }
  }

  lemma FollowsRemove(lineage: Lineage, a: Canvas, b: Canvas, t: Track, id: string)
    requires Follows(a, b, t)
    ensures Follows(DoRemove(a, id), DoRemove(b, id), Advance(t, Remove(id)))
  {
    var next, t' := DoRemove(b, id), Advance(t, Remove(id));
    LaidRemove(b, Held(t), HeldSizes(t), id);
    RemovedHeld(b, t, id);
    RemovedAgrees(next, t, id);
  }

  lemma RemovedAgrees(next: Canvas, t: Track, id: string)
    requires forall n | n in next.nodes :: n.id != id
    requires next.workflow.Some? ==> id !in next.workflow.value.nodes
    ensures var t' := Advance(t, Remove(id)); Laid(next, Held(t), HeldSizes(t)) == Laid(next, Held(t'), HeldSizes(t'))
  {
    var t' := Advance(t, Remove(id));
    assert forall x | x != id :: (x in Held(t) <==> x in Held(t')) && (x in HeldSizes(t) <==> x in HeldSizes(t'));
    LaidAgrees(next, Held(t), HeldSizes(t), Held(t'), HeldSizes(t'));
  }

  lemma FollowsSpawn(lineage: Lineage, a: Canvas, b: Canvas, t: Track, op: EditOp)
    requires Follows(a, b, t) && op.Spawn?
    ensures BothFollow(DoSpawn(lineage, a, op), DoSpawn(lineage, b, op), Advance(t, op))
  {
    LaidSpawn(b, Held(t), HeldSizes(t), op, lineage);
    SpawnOvertakes(t, op);
    if DoSpawn(lineage, b, op).Ok? {
      SpawnHeld(lineage, b, t, op);
    }
  }

  lemma SpawnOvertakes(t: Track, op: EditOp)
    requires op.Spawn?
    ensures Held(Advance(t, op)) == Held(t) - {op.id} && HeldSizes(Advance(t, op)) == HeldSizes(t) - {op.id}
  {
  }

  lemma SpawnHeld(lineage: Lineage, b: Canvas, t: Track, op: EditOp)
    requires OvertakenHeld(b, t) && op.Spawn? && DoSpawn(lineage, b, op).Ok?
    ensures OvertakenHeld(DoSpawn(lineage, b, op).value, Advance(t, op))
  {
    SpawnedHeld(b, t, op);
    DoSpawnLayout(lineage, b, op);
    SameLayoutHolds(WithSpawned(b, op), DoSpawn(lineage, b, op).value, Advance(t, op));
  }

  lemma DoSpawnLayout(lineage: Lineage, b: Canvas, op: EditOp)
    requires op.Spawn?
    ensures DoSpawn(lineage, b, op).Ok? ==> SameLayout(WithSpawned(b, op), DoSpawn(lineage, b, op).value)
  {}

  lemma SpawnedHeld(b: Canvas, t: Track, op: EditOp)
    requires OvertakenHeld(b, t) && op.Spawn?
    ensures OvertakenHeld(WithSpawned(b, op), Advance(t, op))
  {
    var spawned := WithSpawned(b, op);
    var added := spawned.nodes[|spawned.nodes| - 1];
    assert added in spawned.nodes && added.id == op.id;
    forall n | n in spawned.nodes ensures n == added || (n in b.nodes && n.id != op.id) {}
    forall x | x != op.id && Shows(b.nodes, x) ensures Shows(spawned.nodes, x) {
      var n :| n in b.nodes && n.id == x;
      assert n in Filter(b.nodes, NotNamed(op.id));
      assert n in spawned.nodes;
    }
  }

  lemma {:induction false} GraphOpsFollow(lineage: Lineage, c: Canvas, ops: seq<EditOp>)
    ensures BothFollow(Preview(lineage, c, ops), Preview(lineage, c, GraphOps(ops)), TrackOf(ops))
  {
    if ops == [] {
      LaidNothing(c);
      assert Held(TrackOf(ops)) == map[] && HeldSizes(TrackOf(ops)) == map[];
    } else {
      var op, before := Last(ops), GraphOps(Init(ops));
      GraphOpsFollow(lineage, c, Init(ops));
      assert op.Move? || op.Resize? || (Init(GraphOps(ops)) == before && Last(GraphOps(ops)) == op);
      if Preview(lineage, c, Init(ops)).Ok? {
        var a, b, t := Preview(lineage, c, Init(ops)).value, Preview(lineage, c, before).value, TrackOf(Init(ops));
        FollowsStep(lineage, a, b, t, op);
      }
    }
  }

  lemma FollowsStep(lineage: Lineage, a: Canvas, b: Canvas, t: Track, op: EditOp)
    requires Follows(a, b, t)
    ensures op.Move? || op.Resize? ==>
      Step(lineage, a, op).Ok? && Follows(Step(lineage, a, op).value, b, Advance(t, op))
    ensures !op.Move? && !op.Resize? ==>
      BothFollow(Step(lineage, a, op), Step(lineage, b, op), Advance(t, op))
  {
    match op
    case Move(_, _) => FollowsMove(lineage, a, b, t, op);
    case Resize(_, _) => FollowsMove(lineage, a, b, t, op);
    case SetSemanticsOf(_, _) => FollowsParam(lineage, a, b, t, op);
    case SetParamOf(_, _, _) => FollowsParam(lineage, a, b, t, op);
    case Spawn(_, _, _, _, _, _) => FollowsSpawn(lineage, a, b, t, op);
    case Remove(id) => FollowsRemove(lineage, a, b, t, id);
    case Connect(_, _, _) => FollowsEdges(lineage, a, b, t, op);
    case Disconnect(_, _, _) => FollowsEdges(lineage, a, b, t, op);
  }

  // ----- replaying the snapshot -----

  lemma {:induction false} PreviewAppend(lineage: Lineage, c: Canvas, a: seq<EditOp>, b: seq<EditOp>)
    ensures Preview(lineage, c, a).Err? ==> Preview(lineage, c, a + b) == Preview(lineage, c, a)
    ensures Preview(lineage, c, a).Ok? ==>
      Preview(lineage, c, a + b) == Preview(lineage, Preview(lineage, c, a).value, b)
    decreases |b|
  {
    if b == [] {
      assert a + b == a;
    } else {
      assert Init(a + b) == a + Init(b) && Last(a + b) == Last(b);
      PreviewAppend(lineage, c, a, Init(b));
    }
  }

  /** The layout a list of entries describes; a later entry wins. */
  function LayoutOf(entries: seq<Entry>): Layout {
    if entries == [] then map[] else LayoutOf(Init(entries))[Last(entries).id := Last(entries).value]
  }

  lemma {:induction false} MovesLay(lineage: Lineage, c: Canvas, size: Layout, entries: seq<Entry>)
    ensures Preview(lineage, Laid(c, map[], size), Moves(entries)) == Ok(Laid(c, LayoutOf(entries), size))
  {
    if entries != [] {
      var last := Last(entries);
      MovesLay(lineage, c, size, Init(entries));
      assert Init(Moves(entries)) == Moves(Init(entries)) && Last(Moves(entries)) == Move(last.id, last.value);
      LaidMove(c, LayoutOf(Init(entries)), size, last.id, last.value, lineage);
    }
  }

  lemma {:induction false} ResizesLay(lineage: Lineage, c: Canvas, pos: Layout, entries: seq<Entry>)
    ensures Preview(lineage, Laid(c, pos, map[]), Resizes(entries)) == Ok(Laid(c, pos, LayoutOf(entries)))
  {
    if entries != [] {
      var last := Last(entries);
      ResizesLay(lineage, c, pos, Init(entries));
      assert Init(Resizes(entries)) == Resizes(Init(entries)) && Last(Resizes(entries)) == Resize(last.id, last.value);
      LaidResize(c, pos, LayoutOf(Init(entries)), last.id, last.value, lineage);
    }
  }

  predicate DistinctIds(entries: seq<Entry>) {
    forall i, j | 0 <= i < j < |entries| :: entries[i].id != entries[j].id
  }

  ghost predicate Lists(entries: seq<Entry>, id: string) { exists e | e in entries :: e.id == id }

  lemma {:induction false} LayoutOfCons(entries: seq<Entry>)
    requires entries != []
    ensures LayoutOf(entries) == map[entries[0].id := entries[0].value] + LayoutOf(entries[1..])
    decreases |entries|
  {
    if |entries| > 1 {
      LayoutOfCons(Init(entries));
      assert Init(entries)[1..] == Init(entries[1..]) && Last(entries[1..]) == Last(entries);
    } else {
      assert Init(entries) == [] && entries[1..] == [];
    }
  }

  lemma {:induction false} LayoutOfLists(entries: seq<Entry>, id: string)
    ensures id in LayoutOf(entries) <==> Lists(entries, id)
  {
    if entries != [] {
      LayoutOfLists(Init(entries), id);
      assert entries == Init(entries) + [Last(entries)];
      assert forall e :: e in entries <==> e == Last(entries) || e in Init(entries);
    }
  }

  lemma {:induction false} UpsertLists(entries: seq<Entry>, id: string, value: Point, x: string)
    ensures Lists(Upsert(entries, id, value), x) <==> Lists(entries, x) || x == id
  {
    if entries != [] {
      var rest := entries[1..];
      UpsertLists(rest, id, value, x);
      assert forall e :: e in entries <==> e == entries[0] || e in rest;
      var after := Upsert(entries, id, value);
      assert forall e :: e in after <==> e == after[0] || e in after[1..];
      assert after[0] in after && entries[0] in entries;
    } else {
      assert Upsert(entries, id, value)[0] in Upsert(entries, id, value);
    }
  }

  lemma DistinctCons(e: Entry, rest: seq<Entry>)
    ensures DistinctIds([e] + rest) <==> DistinctIds(rest) && !Lists(rest, e.id)
  {
    var all := [e] + rest;
    if DistinctIds(all) {
      forall i, j | 0 <= i < j < |rest| ensures rest[i].id != rest[j].id {
        assert all[i + 1].id != all[j + 1].id;
      }
      forall x | x in rest ensures x.id != e.id {
        var j :| 0 <= j < |rest| && rest[j] == x;
        assert all[0].id != all[j + 1].id;
      }
    }
    if DistinctIds(rest) && !Lists(rest, e.id) {
      assert forall j | 0 <= j < |rest| :: rest[j] in rest;
    }
  }

  /** Setting a key of a `Map` keeps the keys distinct and sets the key in the layout. */
  lemma {:induction false} UpsertDistinct(entries: seq<Entry>, id: string, value: Point)
    requires DistinctIds(entries)
    ensures DistinctIds(Upsert(entries, id, value))
  {
    if entries != [] {
      var rest := entries[1..];
      assert entries == [entries[0]] + rest;
      DistinctCons(entries[0], rest);
      if entries[0].id == id {
        DistinctCons(Entry(id, value), rest);
      } else {
        UpsertDistinct(rest, id, value);
        UpsertLists(rest, id, value, entries[0].id);
        DistinctCons(entries[0], Upsert(rest, id, value));
      }
    }
  }

  lemma SetFirst(key: string, held: Point, m: Layout, value: Point)
    requires key !in m
    ensures (map[key := held] + m)[key := value] == map[key := value] + m
  {}

  lemma SetLater(key: string, held: Point, m: Layout, id: string, value: Point)
    requires key != id
    ensures (map[key := held] + m)[id := value] == map[key := held] + m[id := value]
  {}

  lemma {:induction false} UpsertSets(entries: seq<Entry>, id: string, value: Point)
    requires DistinctIds(entries)
    ensures LayoutOf(Upsert(entries, id, value)) == LayoutOf(entries)[id := value]
  {
    var after := Upsert(entries, id, value);
    LayoutOfCons(after);
    if entries == [] {
      assert after[1..] == [];
    } else {
      var rest := entries[1..];
      assert entries == [entries[0]] + rest;
      DistinctCons(entries[0], rest);
      LayoutOfCons(entries);
      if entries[0].id == id {
        assert after[1..] == rest;
        LayoutOfLists(rest, id);
        SetFirst(entries[0].id, entries[0].value, LayoutOf(rest), value);
      } else {
        assert after[1..] == Upsert(rest, id, value);
        UpsertSets(rest, id, value);
        SetLater(entries[0].id, entries[0].value, LayoutOf(rest), id, value);
      }
    }
  }

  lemma {:induction false} SnapshotTracks(ops: seq<EditOp>)
    ensures DistinctIds(Positions(ops)) && LayoutOf(Positions(ops)) == TrackOf(ops).moved
    ensures DistinctIds(Sizes(ops)) && LayoutOf(Sizes(ops)) == TrackOf(ops).resized
  {
    if ops != [] {
      SnapshotTracks(Init(ops));
      if Last(ops).Move? {
        UpsertDistinct(Positions(Init(ops)), Last(ops).id, Last(ops).pos);
        UpsertSets(Positions(Init(ops)), Last(ops).id, Last(ops).pos);
      } else if Last(ops).Resize? {
        UpsertDistinct(Sizes(Init(ops)), Last(ops).id, Last(ops).extent);
        UpsertSets(Sizes(Init(ops)), Last(ops).id, Last(ops).extent);
      }
    }
  }

  /** The layout operations of the snapshot a session splits off. */
  function SplitLayout(ops: seq<EditOp>): seq<EditOp> {
    match ToSnapshot(Positions(ops), Sizes(ops))
    case None => []
    case Some(snapshot) => LayoutOps(snapshot)
  }

  lemma SplitLays(lineage: Lineage, b: Canvas, ops: seq<EditOp>)
    ensures Preview(lineage, b, SplitLayout(ops)) == Ok(Laid(b, TrackOf(ops).moved, TrackOf(ops).resized))
  {
    SnapshotTracks(ops);
    LaidNothing(b);
    MovesLay(lineage, b, map[], Positions(ops));
    ResizesLay(lineage, b, TrackOf(ops).moved, Sizes(ops));
    PreviewAppend(lineage, b, Moves(Positions(ops)), Resizes(Sizes(ops)));
    assert Moves([]) == [] && Resizes([]) == [];
    assert SplitLayout(ops) == Moves(Positions(ops)) + Resizes(Sizes(ops));
  }

  lemma {:induction false} TrackSorts(ops: seq<EditOp>)
    ensures TrackOf(ops).overtaken.Keys <= TrackOf(ops).moved.Keys
    ensures TrackOf(ops).overtakenSizes <= TrackOf(ops).resized.Keys
  {
    if ops != [] { TrackSorts(Init(ops)); }
  }

  lemma SafeLaysAlike(b: Canvas, t: Track)
    requires OvertakenHeld(b, t) && t.overtakenSizes == {}
    requires forall id | id in t.overtaken :: t.overtaken[id] == t.moved[id]
    ensures Laid(b, Held(t), HeldSizes(t)) == Laid(b, t.moved, t.resized)
  {
    assert HeldSizes(t) == t.resized;
    forall n | n in b.nodes ensures LaidNode(n, Held(t), HeldSizes(t)) == LaidNode(n, t.moved, t.resized) {}
    LaidAgrees(b, Held(t), HeldSizes(t), t.moved, t.resized);
  }

  lemma AlikeIsSafe(b: Canvas, t: Track)
    requires OvertakenHeld(b, t) && Laid(b, Held(t), HeldSizes(t)) == Laid(b, t.moved, t.resized)
    ensures t.overtakenSizes == {} && forall id | id in t.overtaken :: t.overtaken[id] == t.moved[id]
  {
    forall id | Shows(b.nodes, id)
      ensures exists n | n in b.nodes ::
        n.id == id && LaidNode(n, Held(t), HeldSizes(t)) == LaidNode(n, t.moved, t.resized)
    {
      var i :| 0 <= i < |b.nodes| && b.nodes[i].id == id;
      assert LaidNodes(b.nodes, Held(t), HeldSizes(t))[i] == LaidNodes(b.nodes, t.moved, t.resized)[i];
      assert b.nodes[i] in b.nodes;
    }
  }

  /** Splitting a session keeps its meaning exactly when its layout is safe; a session that
      throws throws the same either way. */
  lemma SplitKeepsMeaningExactly(lineage: Lineage, c: Canvas, ops: seq<EditOp>)
    ensures Preview(lineage, c, GraphOps(ops) + SplitLayout(ops)) == Preview(lineage, c, ops)
      <==> (Preview(lineage, c, ops).Ok? ==> LayoutSafe(ops))
  {
    GraphOpsFollow(lineage, c, ops);
    PreviewAppend(lineage, c, GraphOps(ops), SplitLayout(ops));
    if Preview(lineage, c, ops).Ok? {
      var b, t := Preview(lineage, c, GraphOps(ops)).value, TrackOf(ops);
      SplitLays(lineage, b, ops);
      TrackSorts(ops);
      if LayoutSafe(ops) { SafeLaysAlike(b, t); }
      if Laid(b, Held(t), HeldSizes(t)) == Laid(b, t.moved, t.resized) { AlikeIsSafe(b, t); }
    }
  }

  /** No id is spawned after it was moved or resized. */
  ghost predicate NoLateSpawn(ops: seq<EditOp>) {
    forall i, j | 0 <= i < j < |ops| && (ops[i].Move? || ops[i].Resize?) && ops[j].Spawn? :: ops[i].id != ops[j].id
  }

  lemma {:induction false} TrackedWasLaid(ops: seq<EditOp>)
    ensures forall id | id in TrackOf(ops).moved || id in TrackOf(ops).resized ::
      exists i | 0 <= i < |ops| :: (ops[i].Move? || ops[i].Resize?) && ops[i].id == id
  {
    if ops != [] {
      TrackedWasLaid(Init(ops));
      forall id | id in TrackOf(ops).moved || id in TrackOf(ops).resized
        ensures exists i | 0 <= i < |ops| :: (ops[i].Move? || ops[i].Resize?) && ops[i].id == id
      {
        if id in TrackOf(Init(ops)).moved || id in TrackOf(Init(ops)).resized {
          var i :| 0 <= i < |Init(ops)| && (Init(ops)[i].Move? || Init(ops)[i].Resize?) && Init(ops)[i].id == id;
          assert ops[i] == Init(ops)[i];
        } else {
          assert ops[|ops| - 1] == Last(ops);
        }
      }
    }
  }

  lemma {:induction false} NothingOvertaken(ops: seq<EditOp>)
    requires NoLateSpawn(ops)
    ensures TrackOf(ops).overtaken == map[] && TrackOf(ops).overtakenSizes == {}
  {
    if ops != [] {
      var before := Init(ops);
      assert forall i | 0 <= i < |before| :: before[i] == ops[i];
      NothingOvertaken(before);
      TrackedWasLaid(before);
    }
  }

  /** The common case: sessions that never respawn a laid-out node split safely. */
  lemma SplitKeepsMeaning(lineage: Lineage, c: Canvas, ops: seq<EditOp>)
    requires NoLateSpawn(ops)
    ensures Preview(lineage, c, GraphOps(ops) + SplitLayout(ops)) == Preview(lineage, c, ops)
  {
    NothingOvertaken(ops);
    SplitKeepsMeaningExactly(lineage, c, ops);
  }

  /** The input that shows the condition is needed: a move, then a spawn somewhere else. */
  lemma LateSpawnChangesMeaning(lineage: Lineage)
    ensures var c := Canvas([], [], None);
      var ops := [Move("n", Point(1, 1)), Spawn("n", "input.text", None, Null, Point(0, 0), None)];
      Preview(lineage, c, GraphOps(ops) + SplitLayout(ops)) != Preview(lineage, c, ops)
  {
    var c := Canvas([], [], None);
    var move, spawn := Move("n", Point(1, 1)), Spawn("n", "input.text", None, Null, Point(0, 0), None);
    var ops := [move, spawn];
    assert Init(ops) == [move] && Init([move]) == [];
    assert TrackOf([move]) == Advance(TrackOf([]), move);
    assert TrackOf(ops).overtaken["n"] == Point(0, 0);
    assert Preview(lineage, c, []) == Ok(c);
    assert Preview(lineage, c, [move]).Ok?;
    assert Preview(lineage, c, ops).Ok?;
    SplitKeepsMeaningExactly(lineage, c, ops);
  }

  // ----- a snapshot and back -----

  predicate Normal(entries: Option<seq<Entry>>) {
    entries.Some? ==> entries.value != [] && DistinctIds(entries.value)
  }

  lemma {:induction false} UpsertLast(entries: seq<Entry>, id: string, value: Point)
    ensures |Upsert(entries, id, value)| <= |entries| + 1
    ensures (forall i | 0 <= i < |entries| :: entries[i].id != id) ==>
      Upsert(entries, id, value) == entries + [Entry(id, value)]
    ensures (exists i | 0 <= i < |entries| :: entries[i].id == id) ==> |Upsert(entries, id, value)| == |entries|
  {
    if entries != [] {
      UpsertLast(entries[1..], id, value);
      if i :| 0 <= i < |entries| && entries[i].id == id {
        if i > 0 { assert entries[1..][i - 1].id == id; }
      }
    }
  }

  /** Entries collected from their own moves come back exactly when their ids are distinct. */
  lemma {:induction false} MovesComeBack(entries: seq<Entry>)
    ensures |Positions(Moves(entries))| <= |entries|
    ensures Positions(Moves(entries)) == entries <==> DistinctIds(entries)
    ensures GraphOps(Moves(entries)) == [] && Sizes(Moves(entries)) == []
  {
    if entries != [] {
      MovesComeBack(Init(entries));
      assert Init(Moves(entries)) == Moves(Init(entries));
      UpsertLast(Positions(Moves(Init(entries))), Last(entries).id, Last(entries).value);
      CollectedDistinct(Init(entries), Last(entries), Positions(Moves(Init(entries))), Positions(Moves(entries)));
    }
  }

  lemma {:induction false} ResizesComeBack(entries: seq<Entry>)
    ensures |Sizes(Resizes(entries))| <= |entries|
    ensures Sizes(Resizes(entries)) == entries <==> DistinctIds(entries)
    ensures GraphOps(Resizes(entries)) == [] && Positions(Resizes(entries)) == []
  {
    if entries != [] {
      ResizesComeBack(Init(entries));
      assert Init(Resizes(entries)) == Resizes(Init(entries));
      UpsertLast(Sizes(Resizes(Init(entries))), Last(entries).id, Last(entries).value);
      CollectedDistinct(Init(entries), Last(entries), Sizes(Resizes(Init(entries))), Sizes(Resizes(entries)));
    }
  }

  lemma CollectedDistinct(init: seq<Entry>, last: Entry, before: seq<Entry>, after: seq<Entry>)
    requires |before| <= |init| && (before == init <==> DistinctIds(init))
    requires after == Upsert(before, last.id, last.value)
    ensures after == init + [last] <==> DistinctIds(init + [last])
  {
    UpsertLast(before, last.id, last.value);
    var all := init + [last];
    assert forall i | 0 <= i < |init| :: all[i] == init[i];
    assert all[|init|] == last;
    if DistinctIds(all) {
      assert forall i | 0 <= i < |init| :: all[i].id != all[|init|].id;
    }
    if after == all {
      assert |after| == |before| + 1;
      assert before == after[..|before|];
    }
  }

  lemma {:induction false} SplitOfAppend(a: seq<EditOp>, b: seq<EditOp>)
    requires GraphOps(b) == [] && Positions(b) == [] && Sizes(a) == [] && GraphOps(a) == []
    requires forall op | op in b :: op.Resize?
    ensures GraphOps(a + b) == [] && Positions(a + b) == Positions(a) && Sizes(a + b) == Sizes(b)
    decreases |b|
  {
    if b == [] {
      assert a + b == a;
    } else {
      assert Init(a + b) == a + Init(b) && Last(a + b) == Last(b);
      assert Last(b) in b;
      SplitOfAppend(a, Init(b));
    }
  }

  /** Partitioning the layout operations of a snapshot gives that snapshot and no graph
      operations, exactly for snapshots `partition` can produce. */
  lemma SnapshotRoundTrip(snapshot: Snapshot)
    ensures var ops := LayoutOps(snapshot);
      GraphOps(ops) == [] && ToSnapshot(Positions(ops), Sizes(ops)) == Some(snapshot)
      <==> Normal(snapshot.positions) && Normal(snapshot.sizes) && (snapshot.positions.Some? || snapshot.sizes.Some?)
  {
    var ps, ss := EntriesOr(snapshot.positions), EntriesOr(snapshot.sizes);
    MovesComeBack(ps);
    ResizesComeBack(ss);
    SplitOfAppend(Moves(ps), Resizes(ss));
    assert DistinctIds([]);
  }
}
