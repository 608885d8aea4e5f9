/** What applying a diff does: when it succeeds, the graph it reaches, and where a
    second diff stops. */
module Convergence {
  import opened Json
  import opened Ordering
  import opened Seqs
  import opened Graph
  import opened ProposalDiff

  // ----- the graph a diff reaches -----

  /** A kept node takes the target's params over its own, its position and its
      semantics; its title, size and remaining params stay. */
  function Merged(existing: GraphNode, node: GraphNode): GraphNode {
    existing.(
      params := if node.params.Obj? && existing.params.Obj?
                then Obj(existing.params.fields + node.params.fields) else existing.params,
      pos := node.pos,
      semantics := node.semantics)
  }

  predicate Kept(id: string, c: WorkflowGraph, t: WorkflowGraph) {
    id in c.nodes && id in t.nodes && c.nodes[id].nodeType == t.nodes[id].nodeType
  }

  function Desired(id: string, c: WorkflowGraph, t: WorkflowGraph): GraphNode
    requires id in t.nodes
  {
    if Kept(id, c, t) then Merged(c.nodes[id], t.nodes[id]) else t.nodes[id]
  }

  /** Nodes of the current graph that are removed at some point, for good or to be
      replaced by a node of another type. */
  function Gone(c: WorkflowGraph, t: WorkflowGraph): set<string> {
    set id | id in c.nodes && !Kept(id, c, t)
  }

  /** Edges both graphs have whose node is removed on the way. */
  predicate Lost(e: GraphEdge, c: WorkflowGraph, t: WorkflowGraph) {
    e in c.edges && e in t.edges && Touches(e, Gone(c, t))
  }

  function Surviving(c: WorkflowGraph, t: WorkflowGraph): GraphEdge -> bool {
    e => e in t.edges && !Touches(e, Gone(c, t))
  }

  function Reaches(c: WorkflowGraph, t: WorkflowGraph): WorkflowGraph {
    c.(nodes := map id | id in t.nodes :: Desired(id, c, t),
       edges := Filter(c.edges, Surviving(c, t)) + AddedEdges(c, t))
  }

  // ----- what each operation finds -----

  /** The operation meets the state it was written for and changes it. */
  ghost predicate Applicable(g: WorkflowGraph, op: ProposalOp, t: WorkflowGraph) {
    match op
    case RemoveEdge(e) => e in g.edges
    case RemoveNode(id) => id in g.nodes && (id in t.nodes || forall e | e in g.edges :: !Touches(e, {id}))
    case AddNode(id, _) => id !in g.nodes
    case SetParam(id, key, prev, value) =>
      id in g.nodes && g.nodes[id].params.Obj?
      && Lookup(g.nodes[id].params.fields, key) == prev && prev != Some(value)
    case MoveNode(id, pos) => id in g.nodes && g.nodes[id].pos != pos
    case SetSemantics(id, semantics) => id in g.nodes && g.nodes[id].semantics != semantics
    case AddEdge(e) => e !in g.edges && e.from.node in g.nodes && e.to.node in g.nodes
    case ResizeNode(_, _) => false
  }

  ghost predicate AllApplicable(g: WorkflowGraph, ops: seq<ProposalOp>, t: WorkflowGraph)
    decreases |ops|
  {
    ops == [] || (
      && Applicable(g, ops[0], t)
      && ApplyOp(g, ops[0]).Ok?
      && AllApplicable(ApplyOp(g, ops[0]).value, ops[1..], t))
  }

  lemma {:induction false} ApplicableAppend(g: WorkflowGraph, a: seq<ProposalOp>, b: seq<ProposalOp>, t: WorkflowGraph)
    requires AllApplicable(g, a, t) && ApplyOps(g, a).Ok?
    requires AllApplicable(ApplyOps(g, a).value, b, t)
    ensures AllApplicable(g, a + b, t)
    decreases |a|
  {
    if a == [] {
      assert a + b == b;
    } else {
      assert (a + b)[1..] == a[1..] + b;
      ApplicableAppend(ApplyOp(g, a[0]).value, a[1..], b, t);
    }
  }

  // ----- phase 1: edges the target lacks -----

  lemma {:induction false} RemoveEdgesRun(g: WorkflowGraph, es: seq<GraphEdge>, t: WorkflowGraph)
    ensures ApplyOps(g, RemoveEdgeOps(es)).Ok? <==> Unique(es) && forall e | e in es :: e in g.edges
    ensures Unique(es) && (forall e | e in es :: e in g.edges) ==>
      && ApplyOps(g, RemoveEdgeOps(es)) == Ok(g.(edges := Filter(g.edges, NotIn(es))))
      && AllApplicable(g, RemoveEdgeOps(es), t)
    decreases |es|
  {
    if es == [] {
      FilterAll(g.edges, NotIn(es));
    } else {
      RetainShortens(g.edges, es[0]);
      UniqueTail(es);
      assert es[0] in es;
      assert forall e :: e in es <==> e == es[0] || e in es[1..];
      if es[0] in g.edges {
        var next := g.(edges := Filter(g.edges, OtherThan(es[0])));
        assert ApplyOp(g, RemoveEdge(es[0])) == Ok(next);
        RemoveEdgesRun(next, es[1..], t);
        FilterTwice(g.edges, OtherThan(es[0]), NotIn(es[1..]), NotIn(es));
        assert RemoveEdgeOps(es)[1..] == RemoveEdgeOps(es[1..]);
      }
    }
  }

  // ----- phase 2: nodes the target lacks -----

  function Without(g: WorkflowGraph, ids: set<string>): WorkflowGraph {
    g.(nodes := g.nodes - ids, edges := Filter(g.edges, Avoiding(ids)))
  }

  lemma WithoutTwice(g: WorkflowGraph, a: set<string>, b: set<string>)
    ensures Without(Without(g, a), b) == Without(g, a + b)
  {
    FilterTwice(g.edges, Avoiding(a), Avoiding(b), Avoiding(a + b));
    assert g.nodes - a - b == g.nodes - (a + b);
  }

  lemma WithoutNothing(g: WorkflowGraph)
    ensures Without(g, {}) == g
  {
    FilterAll(g.edges, Avoiding({}));
    assert g.nodes - {} == g.nodes;
  }

  function Dropped(ids: seq<string>, t: WorkflowGraph): set<string> {
    set id | id in ids && id !in t.nodes
  }

  lemma {:induction false} DropRun(g: WorkflowGraph, ids: seq<string>, t: WorkflowGraph)
    requires Unique(ids) && forall id | id in ids :: id in g.nodes
    ensures ApplyOps(g, DropOps(ids, t)) == Ok(Without(g, Dropped(ids, t)))
    ensures (forall e | e in g.edges :: !Touches(e, Dropped(ids, t))) ==> AllApplicable(g, DropOps(ids, t), t)
    decreases |ids|
  {
    if ids == [] {
      assert Dropped(ids, t) == {};
      WithoutNothing(g);
    } else {
      UniqueTail(ids);
      if ids[0] in t.nodes {
        assert Dropped(ids, t) == Dropped(ids[1..], t);
        DropRun(g, ids[1..], t);
      } else {
        assert ids[0] in ids;
        var next := Without(g, {ids[0]});
        DropRun(next, ids[1..], t);
        assert Dropped(ids, t) == {ids[0]} + Dropped(ids[1..], t);
        WithoutTwice(g, {ids[0]}, Dropped(ids[1..], t));
        assert DropOps(ids, t)[1..] == DropOps(ids[1..], t);
      }
    }
  }

  // ----- phase 3: the target's nodes -----

  function WithNode(g: WorkflowGraph, id: string, node: GraphNode): WorkflowGraph {
    g.(nodes := g.nodes[id := node])
  }

  function Restricted(m: map<string, Value>, keys: seq<string>): map<string, Value>
    requires forall k | k in keys :: k in m
  {
    map k | k in keys :: m[k]
  }

  lemma {:induction false} ParamsRun(
    g: WorkflowGraph, id: string, keys: seq<string>, target: map<string, Value>, held: map<string, Value>,
    fields: map<string, Value>, t: WorkflowGraph)
    requires id in g.nodes && g.nodes[id].params == Obj(fields)
    requires Unique(keys) && forall k | k in keys :: k in target
    requires forall k | k in keys :: Lookup(fields, k) == Lookup(held, k)
    ensures ApplyOps(g, ParamOps(id, keys, target, held)) ==
      Ok(WithNode(g, id, g.nodes[id].(params := Obj(fields + Restricted(target, keys)))))
    ensures AllApplicable(g, ParamOps(id, keys, target, held), t)
    decreases |keys|
  {
    if keys == [] {
      assert fields + Restricted(target, keys) == fields;
      assert g.nodes == g.nodes[id := g.nodes[id]];
    } else {
      var key, rest := keys[0], keys[1..];
      UniqueTail(keys);
      assert key in keys;
      RestrictedCons(fields, keys, target);
      if Lookup(held, key) == Some(target[key]) {
        assert fields[key := target[key]] == fields;
        ParamsRun(g, id, rest, target, held, fields, t);
      } else {
        var next := WithNode(g, id, g.nodes[id].(params := Obj(fields[key := target[key]])));
        ParamsRun(next, id, rest, target, held, fields[key := target[key]], t);
        ParamStep(g, id, key, target[key], fields, ParamOps(id, rest, target, held), t);
        var node := g.nodes[id].(params := Obj(fields + Restricted(target, keys)));
        assert g.nodes[id := next.nodes[id]][id := node] == g.nodes[id := node];
      }
    }
  }

  lemma RestrictedCons(fields: map<string, Value>, keys: seq<string>, target: map<string, Value>)
    requires keys != [] && keys[0] !in keys[1..] && forall k | k in keys :: k in target
    ensures fields[keys[0] := target[keys[0]]] + Restricted(target, keys[1..]) == fields + Restricted(target, keys)
  {
    assert forall k :: k in keys <==> k == keys[0] || k in keys[1..];
  }

  lemma ParamStep(
    g: WorkflowGraph, id: string, key: string, value: Value, fields: map<string, Value>, rest: seq<ProposalOp>,
    t: WorkflowGraph)
    requires id in g.nodes && g.nodes[id].params == Obj(fields) && Lookup(fields, key) != Some(value)
    ensures var op := SetParam(id, key, Lookup(fields, key), value);
      var next := WithNode(g, id, g.nodes[id].(params := Obj(fields[key := value])));
      && ApplyOps(g, [op] + rest) == ApplyOps(next, rest)
      && AllApplicable(g, [op] + rest, t) == AllApplicable(next, rest, t)
  {
    var op := SetParam(id, key, Lookup(fields, key), value);
    assert ([op] + rest)[1..] == rest;
  }

  lemma ParamPartRun(g: WorkflowGraph, id: string, node: GraphNode, t: WorkflowGraph)
    requires id in g.nodes
    ensures var params := Merged(g.nodes[id], node).params;
      && ApplyOps(g, ParamPart(id, node, g.nodes[id])) == Ok(WithNode(g, id, g.nodes[id].(params := params)))
      && AllApplicable(g, ParamPart(id, node, g.nodes[id]), t)
  {
    var existing := g.nodes[id];
    if node.params.Obj? && existing.params.Obj? {
      var target, fields := node.params.fields, existing.params.fields;
      var keys := SortedKeys(target.Keys);
      SortedKeysUnique(target.Keys);
      ParamsRun(g, id, keys, target, fields, fields, t);
      assert Restricted(target, keys) == target;
    } else {
      assert g.nodes == g.nodes[id := existing];
    }
  }

  lemma SortedKeysUnique(s: set<string>)
    ensures Unique(SortedKeys(s))
  {
    SortedKeysIncrease(s);
    UniqueDistinct(SortedKeys(s));
  }

  lemma ThenRun(
    g: WorkflowGraph, a: seq<ProposalOp>, between: WorkflowGraph, b: seq<ProposalOp>, last: WorkflowGraph,
    t: WorkflowGraph)
    requires ApplyOps(g, a) == Ok(between) && AllApplicable(g, a, t)
    requires ApplyOps(between, b) == Ok(last) && AllApplicable(between, b, t)
    ensures ApplyOps(g, a + b) == Ok(last) && AllApplicable(g, a + b, t)
  {
    ApplyAppend(g, a, b);
    ApplicableAppend(g, a, b, t);
  }

  lemma MoveRun(g: WorkflowGraph, id: string, pos: Point, t: WorkflowGraph)
    requires id in g.nodes
    ensures var move := if g.nodes[id].pos != pos then [MoveNode(id, pos)] else [];
      ApplyOps(g, move) == Ok(WithNode(g, id, g.nodes[id].(pos := pos))) && AllApplicable(g, move, t)
  {
    assert g.nodes[id := g.nodes[id]] == g.nodes;
  }

  lemma BindRun(g: WorkflowGraph, id: string, semantics: Option<Semantics>, t: WorkflowGraph)
    requires id in g.nodes
    ensures var bind := if g.nodes[id].semantics != semantics then [SetSemantics(id, semantics)] else [];
      ApplyOps(g, bind) == Ok(WithNode(g, id, g.nodes[id].(semantics := semantics))) && AllApplicable(g, bind, t)
  {
    assert g.nodes[id := g.nodes[id]] == g.nodes;
  }

  /** What follows the params of a kept node. */
  lemma PlaceRun(g: WorkflowGraph, id: string, node: GraphNode, t: WorkflowGraph)
    requires id in g.nodes
    ensures var existing := g.nodes[id];
      var move := if existing.pos != node.pos then [MoveNode(id, node.pos)] else [];
      var bind := if existing.semantics != node.semantics then [SetSemantics(id, node.semantics)] else [];
      && ApplyOps(g, move + bind) == Ok(WithNode(g, id, existing.(pos := node.pos, semantics := node.semantics)))
      && AllApplicable(g, move + bind, t)
  {
    var existing := g.nodes[id];
    var move := if existing.pos != node.pos then [MoveNode(id, node.pos)] else [];
    var bind := if existing.semantics != node.semantics then [SetSemantics(id, node.semantics)] else [];
    var moved := WithNode(g, id, existing.(pos := node.pos));
    var bound := WithNode(moved, id, moved.nodes[id].(semantics := node.semantics));
    MoveRun(g, id, node.pos, t);
    BindRun(moved, id, node.semantics, t);
    ThenRun(g, move, moved, bind, bound, t);
    assert bound == WithNode(g, id, existing.(pos := node.pos, semantics := node.semantics));
  }

  lemma KeptRun(g: WorkflowGraph, id: string, node: GraphNode, t: WorkflowGraph)
    requires id in g.nodes
    ensures ApplyOps(g, KeptOps(id, node, g.nodes[id])) == Ok(WithNode(g, id, Merged(g.nodes[id], node)))
    ensures AllApplicable(g, KeptOps(id, node, g.nodes[id]), t)
  {
    var existing := g.nodes[id];
    var params := ParamPart(id, node, existing);
    var move := if existing.pos != node.pos then [MoveNode(id, node.pos)] else [];
    var bind := if existing.semantics != node.semantics then [SetSemantics(id, node.semantics)] else [];
    ParamPartRun(g, id, node, t);
    var between := WithNode(g, id, existing.(params := Merged(existing, node).params));
    PlaceRun(between, id, node, t);
    var last := WithNode(g, id, Merged(existing, node));
    assert WithNode(between, id, between.nodes[id].(pos := node.pos, semantics := node.semantics)) == last;
    ThenRun(g, params, between, move + bind, last, t);
    assert KeptOps(id, node, existing) == params + (move + bind);
  }

  function GoneAmong(ids: seq<string>, c: WorkflowGraph, t: WorkflowGraph): set<string> {
    set id | id in ids && id in Gone(c, t)
  }

  function DesiredAmong(ids: seq<string>, c: WorkflowGraph, t: WorkflowGraph): map<string, GraphNode>
    requires forall id | id in ids :: id in t.nodes
  {
    map id | id in ids :: Desired(id, c, t)
  }

  /** The graph after the target's nodes in `ids` have been handled. */
  function Settled(g: WorkflowGraph, ids: seq<string>, c: WorkflowGraph, t: WorkflowGraph): WorkflowGraph
    requires forall id | id in ids :: id in t.nodes
  {
    g.(nodes := g.nodes + DesiredAmong(ids, c, t), edges := Filter(g.edges, Avoiding(GoneAmong(ids, c, t))))
  }

  lemma NodeRun(g: WorkflowGraph, id: string, c: WorkflowGraph, t: WorkflowGraph)
    requires id in t.nodes
    requires id in g.nodes <==> id in c.nodes
    requires id in g.nodes ==> g.nodes[id] == c.nodes[id]
    ensures ApplyOps(g, NodeOps(id, c, t)) == Ok(Settled(g, [id], c, t))
    ensures AllApplicable(g, NodeOps(id, c, t), t)
  {
    var after := Settled(g, [id], c, t);
    var gone := GoneAmong([id], c, t);
    assert after.nodes == g.nodes[id := Desired(id, c, t)];
    if id !in c.nodes || Kept(id, c, t) {
      assert gone == {};
      FilterAll(g.edges, Avoiding(gone));
      if Kept(id, c, t) { KeptRun(g, id, t.nodes[id], t); }
    } else {
      assert gone == {id};
      var ops := NodeOps(id, c, t);
      var next := Without(g, {id});
      assert ops == [RemoveNode(id)] + [AddNode(id, t.nodes[id])];
      assert ApplyOp(g, ops[0]) == Ok(next);
      assert ops[1..] == [AddNode(id, t.nodes[id])];
      assert next.nodes[id := t.nodes[id]] == after.nodes;
      assert ApplyOps(next, ops[1..]) == Ok(after);
    }
  }

  lemma {:induction false} NodesRun(g: WorkflowGraph, ids: seq<string>, c: WorkflowGraph, t: WorkflowGraph)
    requires Unique(ids) && forall id | id in ids :: id in t.nodes
    requires forall id | id in ids ::
      (id in g.nodes <==> id in c.nodes) && (id in g.nodes ==> g.nodes[id] == c.nodes[id])
    ensures ApplyOps(g, NodesOps(ids, c, t)) == Ok(Settled(g, ids, c, t))
    ensures AllApplicable(g, NodesOps(ids, c, t), t)
    decreases |ids|
  {
    if ids == [] {
      assert Settled(g, ids, c, t).nodes == g.nodes;
      FilterAll(g.edges, Avoiding(GoneAmong(ids, c, t)));
    } else {
      var id, rest := ids[0], ids[1..];
      UniqueTail(ids);
      assert id in ids;
      NodeRun(g, id, c, t);
      var next := Settled(g, [id], c, t);
      NodesRun(next, rest, c, t);
      SettledCons(g, ids, c, t);
      ApplyAppend(g, NodeOps(id, c, t), NodesOps(rest, c, t));
      ApplicableAppend(g, NodeOps(id, c, t), NodesOps(rest, c, t), t);
    }
  }

  lemma SettledCons(g: WorkflowGraph, ids: seq<string>, c: WorkflowGraph, t: WorkflowGraph)
    requires ids != [] && forall id | id in ids :: id in t.nodes
    ensures Settled(Settled(g, [ids[0]], c, t), ids[1..], c, t) == Settled(g, ids, c, t)
  {
    var first, rest := [ids[0]], ids[1..];
    SplitIds(ids, c, t);
    FilterTwice(g.edges, Avoiding(GoneAmong(first, c, t)), Avoiding(GoneAmong(rest, c, t)),
      Avoiding(GoneAmong(ids, c, t)));
    MapPlusTwice(g.nodes, DesiredAmong(first, c, t), DesiredAmong(rest, c, t));
  }

  lemma MapPlusTwice(a: map<string, GraphNode>, b: map<string, GraphNode>, c: map<string, GraphNode>)
    ensures a + b + c == a + (b + c)
  {}

  lemma SplitIds(ids: seq<string>, c: WorkflowGraph, t: WorkflowGraph)
    requires ids != [] && forall id | id in ids :: id in t.nodes
    ensures GoneAmong(ids, c, t) == GoneAmong([ids[0]], c, t) + GoneAmong(ids[1..], c, t)
    ensures DesiredAmong(ids, c, t) == DesiredAmong([ids[0]], c, t) + DesiredAmong(ids[1..], c, t)
  {
    assert forall id :: id in ids <==> id == ids[0] || id in ids[1..];
  }

  // ----- phase 4: edges only the target has -----

  lemma {:induction false} AddEdgesRun(g: WorkflowGraph, es: seq<GraphEdge>, t: WorkflowGraph)
    ensures ApplyOps(g, AddEdgeOps(es)) == Ok(g.(edges := g.edges + es))
    ensures Unique(es) && (forall e | e in es :: e !in g.edges && e.from.node in g.nodes && e.to.node in g.nodes)
      ==> AllApplicable(g, AddEdgeOps(es), t)
    decreases |es|
  {
    if es == [] {
      assert g.edges + es == g.edges;
    } else {
      UniqueTail(es);
      var next := g.(edges := g.edges + [es[0]]);
      assert ApplyOp(g, AddEdge(es[0])) == Ok(next);
      AddEdgesRun(next, es[1..], t);
      assert next.edges + es[1..] == g.edges + es;
      assert AddEdgeOps(es)[1..] == AddEdgeOps(es[1..]);
      assert es[0] in es;
    }
  }

  // ----- the whole script -----

  /** No edge the target lacks is held twice by the current graph. */
  ghost predicate StaleEdgesOnce(c: WorkflowGraph, t: WorkflowGraph) {
    forall e | e in c.edges && e !in t.edges :: multiset(c.edges)[e] == 1
  }

  ghost predicate NewEdgesOnce(c: WorkflowGraph, t: WorkflowGraph) {
    forall e | e in t.edges && e !in c.edges :: multiset(t.edges)[e] == 1
  }

  predicate EdgeClosed(g: WorkflowGraph) {
    forall e | e in g.edges :: e.from.node in g.nodes && e.to.node in g.nodes
  }

  lemma SortedDifference(a: seq<GraphEdge>, b: seq<GraphEdge>)
    ensures var es := Sort(Filter(a, NotIn(b)), EdgeLeq);
      && (forall e :: e in es <==> e in a && e !in b)
      && (Unique(es) <==> forall e | e in a && e !in b :: multiset(a)[e] == 1)
  {
    var diff := Filter(a, NotIn(b));
    EdgeLeqPreorder();
    SortSorts(diff, EdgeLeq);
    var es := Sort(diff, EdgeLeq);
    assert forall e :: e in es <==> e in a && e !in b;
    forall e | e in es ensures multiset(es)[e] == multiset(a)[e] {
      FilterCount(a, NotIn(b), e);
    }
  }

  /** The graph between the node removals and the node additions. */
  lemma RemovalsRun(c: WorkflowGraph, t: WorkflowGraph)
    requires StaleEdgesOnce(c, t)
    ensures ApplyOps(c, RemoveEdgeOps(RemovedEdges(c, t)) + DropOps(SortedKeys(c.nodes.Keys), t)) ==
      Ok(Without(c.(edges := Filter(c.edges, AlsoIn(t.edges))), c.nodes.Keys - t.nodes.Keys))
    ensures EdgeClosed(t) ==>
      AllApplicable(c, RemoveEdgeOps(RemovedEdges(c, t)) + DropOps(SortedKeys(c.nodes.Keys), t), t)
  {
    var es, ids := RemovedEdges(c, t), SortedKeys(c.nodes.Keys);
    SortedDifference(c.edges, t.edges);
    RemoveEdgesRun(c, es, t);
    FilterSame(c.edges, NotIn(es), AlsoIn(t.edges));
    var g1 := c.(edges := Filter(c.edges, AlsoIn(t.edges)));
    SortedKeysUnique(c.nodes.Keys);
    DropRun(g1, ids, t);
    assert Dropped(ids, t) == c.nodes.Keys - t.nodes.Keys;
    ApplyAppend(c, RemoveEdgeOps(es), DropOps(ids, t));
    if EdgeClosed(t) {
      ApplicableAppend(c, RemoveEdgeOps(es), DropOps(ids, t), t);
    }
  }

  lemma AdditionsRun(g: WorkflowGraph, c: WorkflowGraph, t: WorkflowGraph)
    requires g == Without(c.(edges := Filter(c.edges, AlsoIn(t.edges))), c.nodes.Keys - t.nodes.Keys)
    ensures ApplyOps(g, NodesOps(SortedKeys(t.nodes.Keys), c, t) + AddEdgeOps(AddedEdges(c, t))) == Ok(Reaches(c, t))
    ensures EdgeClosed(t) && NewEdgesOnce(c, t) ==>
      AllApplicable(g, NodesOps(SortedKeys(t.nodes.Keys), c, t) + AddEdgeOps(AddedEdges(c, t)), t)
  {
    var ids, es := SortedKeys(t.nodes.Keys), AddedEdges(c, t);
    SortedKeysUnique(t.nodes.Keys);
    SortedDifference(t.edges, c.edges);
    NodesRun(g, ids, c, t);
    SettledAll(g, c, t);
    var next := Settled(g, ids, c, t);
    AddEdgesRun(next, es, t);
    ApplyAppend(g, NodesOps(ids, c, t), AddEdgeOps(es));
    if EdgeClosed(t) && NewEdgesOnce(c, t) {
      ApplicableAppend(g, NodesOps(ids, c, t), AddEdgeOps(es), t);
    }
  }

  lemma SettledAll(g: WorkflowGraph, c: WorkflowGraph, t: WorkflowGraph)
    requires g == Without(c.(edges := Filter(c.edges, AlsoIn(t.edges))), c.nodes.Keys - t.nodes.Keys)
    ensures Settled(g, SortedKeys(t.nodes.Keys), c, t) == Reaches(c, t).(edges := Filter(c.edges, Surviving(c, t)))
  {
    var ids, dropped := SortedKeys(t.nodes.Keys), c.nodes.Keys - t.nodes.Keys;
    var both := Avoiding(dropped + GoneAmong(ids, c, t));
    assert Gone(c, t) == dropped + GoneAmong(ids, c, t);
    FilterTwice(Filter(c.edges, AlsoIn(t.edges)), Avoiding(dropped), Avoiding(GoneAmong(ids, c, t)), both);
    FilterTwice(c.edges, AlsoIn(t.edges), both, Surviving(c, t));
    assert g.nodes + DesiredAmong(ids, c, t) == Reaches(c, t).nodes;
  }

  lemma SplitScript(c: WorkflowGraph, t: WorkflowGraph)
    ensures DiffOps(c, t) ==
      (RemoveEdgeOps(RemovedEdges(c, t)) + DropOps(SortedKeys(c.nodes.Keys), t))
      + (NodesOps(SortedKeys(t.nodes.Keys), c, t) + AddEdgeOps(AddedEdges(c, t)))
  {}

  /** Applying a diff succeeds exactly when no stale edge is held twice, and then it
      reaches `Reaches(c, t)`. */
  lemma ApplyingDiff(c: WorkflowGraph, t: WorkflowGraph)
    ensures ApplyOps(c, DiffOps(c, t)).Ok? <==> StaleEdgesOnce(c, t)
    ensures StaleEdgesOnce(c, t) ==> ApplyOps(c, DiffOps(c, t)) == Ok(Reaches(c, t))
  {
    var removals := RemoveEdgeOps(RemovedEdges(c, t)) + DropOps(SortedKeys(c.nodes.Keys), t);
    var additions := NodesOps(SortedKeys(t.nodes.Keys), c, t) + AddEdgeOps(AddedEdges(c, t));
    SplitScript(c, t);
    ApplyAppend(c, removals, additions);
    if StaleEdgesOnce(c, t) {
      RemovalsRun(c, t);
      AdditionsRun(ApplyOps(c, removals).value, c, t);
    } else {
      SortedDifference(c.edges, t.edges);
      RemoveEdgesRun(c, RemovedEdges(c, t), t);
      ApplyAppend(c, RemoveEdgeOps(RemovedEdges(c, t)), DropOps(SortedKeys(c.nodes.Keys), t));
    }
  }

  lemma {:induction false} ApplicableParts(g: WorkflowGraph, a: seq<ProposalOp>, b: seq<ProposalOp>, t: WorkflowGraph)
    requires AllApplicable(g, a + b, t)
    ensures ApplyOps(g, a).Ok? && AllApplicable(ApplyOps(g, a).value, b, t)
    decreases |a|
  {
    if a == [] {
      assert a + b == b;
    } else {
      assert (a + b)[0] == a[0] && (a + b)[1..] == a[1..] + b;
      ApplicableParts(ApplyOp(g, a[0]).value, a[1..], b, t);
    }
  }

  /** Added edges that are each absent when reached are all different. */
  lemma {:induction false} AddedOnce(g: WorkflowGraph, es: seq<GraphEdge>, t: WorkflowGraph)
    requires AllApplicable(g, AddEdgeOps(es), t)
    ensures Unique(es) && forall e | e in es :: e !in g.edges
    decreases |es|
  {
    if es != [] {
      UniqueTail(es);
      var next := g.(edges := g.edges + [es[0]]);
      assert ApplyOp(g, AddEdge(es[0])) == Ok(next);
      assert AddEdgeOps(es)[0] == AddEdge(es[0]) && AddEdgeOps(es)[1..] == AddEdgeOps(es[1..]);
      AddedOnce(next, es[1..], t);
      assert es[0] in next.edges && forall e | e in es :: e == es[0] || e in es[1..];
    }
  }

  /** Every operation of the script finds what it expects, and none is idle, exactly when no
      stale edge is held twice and the target holds no new one twice. */
  lemma StepsApplicableExactly(c: WorkflowGraph, t: WorkflowGraph)
    requires EdgeClosed(t)
    ensures AllApplicable(c, DiffOps(c, t), t) <==> StaleEdgesOnce(c, t) && NewEdgesOnce(c, t)
  {
    if StaleEdgesOnce(c, t) && NewEdgesOnce(c, t) {
      DiffStepsApplicable(c, t);
    }
    if AllApplicable(c, DiffOps(c, t), t) {
      assert DiffOps(c, t) + [] == DiffOps(c, t);
      ApplicableParts(c, DiffOps(c, t), [], t);
      ApplyingDiff(c, t);
      NewOnce(c, t);
    }
  }

  lemma NewOnce(c: WorkflowGraph, t: WorkflowGraph)
    requires AllApplicable(c, DiffOps(c, t), t)
    ensures NewEdgesOnce(c, t)
  {
    var removals := RemoveEdgeOps(RemovedEdges(c, t)) + DropOps(SortedKeys(c.nodes.Keys), t);
    var nodes, added := NodesOps(SortedKeys(t.nodes.Keys), c, t), AddEdgeOps(AddedEdges(c, t));
    SplitScript(c, t);
    assert removals + (nodes + added) == (removals + nodes) + added;
    ApplicableParts(c, removals + nodes, added, t);
    AddedOnce(ApplyOps(c, removals + nodes).value, AddedEdges(c, t), t);
    SortedDifference(t.edges, c.edges);
  }

  lemma DiffStepsApplicable(c: WorkflowGraph, t: WorkflowGraph)
    requires EdgeClosed(t) && StaleEdgesOnce(c, t) && NewEdgesOnce(c, t)
    ensures AllApplicable(c, DiffOps(c, t), t)
  {
    var removals := RemoveEdgeOps(RemovedEdges(c, t)) + DropOps(SortedKeys(c.nodes.Keys), t);
    var additions := NodesOps(SortedKeys(t.nodes.Keys), c, t) + AddEdgeOps(AddedEdges(c, t));
    SplitScript(c, t);
    RemovalsRun(c, t);
    AdditionsRun(ApplyOps(c, removals).value, c, t);
    ApplicableAppend(c, removals, additions, t);
  }

  /** What the applied graph shares with the target and with the current graph. */
  lemma DiffConverges(c: WorkflowGraph, t: WorkflowGraph)
    requires StaleEdgesOnce(c, t)
    ensures ApplyOps(c, DiffOps(c, t)).Ok?
    ensures var r := ApplyOps(c, DiffOps(c, t)).value;
      && r.nodes.Keys == t.nodes.Keys
      && (forall id | id in t.nodes ::
            && r.nodes[id].nodeType == t.nodes[id].nodeType
            && r.nodes[id].pos == t.nodes[id].pos
            && r.nodes[id].semantics == t.nodes[id].semantics
            && (!Kept(id, c, t) ==> r.nodes[id] == t.nodes[id])
            && (Kept(id, c, t) ==> r.nodes[id].title == c.nodes[id].title && r.nodes[id].size == c.nodes[id].size)
            && (Kept(id, c, t) && t.nodes[id].params.Obj? && c.nodes[id].params.Obj? ==>
                  && r.nodes[id].params.Obj?
                  && forall k :: Lookup(r.nodes[id].params.fields, k) ==
                       if k in t.nodes[id].params.fields then Some(t.nodes[id].params.fields[k])
                       else Lookup(c.nodes[id].params.fields, k)))
      && (forall e :: e in r.edges <==> e in t.edges && !Lost(e, c, t))
      && r.schemaVersion == c.schemaVersion && r.catalogRevision == c.catalogRevision
  {
    ApplyingDiff(c, t);
    ReachedEdges(c, t);
  }

  lemma ReachedEdges(c: WorkflowGraph, t: WorkflowGraph)
    ensures forall e :: e in Reaches(c, t).edges <==> e in t.edges && !Lost(e, c, t)
  {
    SortedDifference(t.edges, c.edges);
  }

  /** For an edge-closed target only a retyped node can cost an edge. */
  lemma LostOnlyByRetyping(e: GraphEdge, c: WorkflowGraph, t: WorkflowGraph)
    requires EdgeClosed(t)
    ensures Lost(e, c, t) <==> e in c.edges && e in t.edges && exists id ::
      Touches(e, {id}) && id in c.nodes && id in t.nodes && c.nodes[id].nodeType != t.nodes[id].nodeType
  {
    if Lost(e, c, t) {
      var id := if e.from.node in Gone(c, t) then e.from.node else e.to.node;
      assert Touches(e, {id}) && id in c.nodes && id in t.nodes && c.nodes[id].nodeType != t.nodes[id].nodeType;
    }
  }

  // ----- a second diff -----

  ghost predicate ParamsBound(node: GraphNode, existing: GraphNode) {
    node.params.Obj? && existing.params.Obj? ==>
      forall k | k in node.params.fields :: Lookup(existing.params.fields, k) == Some(node.params.fields[k])
  }

  /** The current graph already says what the target says. */
  ghost predicate Agrees(c: WorkflowGraph, t: WorkflowGraph) {
    && c.nodes.Keys == t.nodes.Keys
    && (forall id | id in t.nodes ::
          && Kept(id, c, t)
          && c.nodes[id].pos == t.nodes[id].pos
          && c.nodes[id].semantics == t.nodes[id].semantics
          && ParamsBound(t.nodes[id], c.nodes[id]))
  }

  lemma {:induction false} ParamOpsEmpty(
    id: string, keys: seq<string>, target: map<string, Value>, held: map<string, Value>)
    requires forall k | k in keys :: k in target
    ensures ParamOps(id, keys, target, held) == [] <==> forall k | k in keys :: Lookup(held, k) == Some(target[k])
  {
    if keys != [] {
      ParamOpsEmpty(id, keys[1..], target, held);
      assert forall k :: k in keys <==> k == keys[0] || k in keys[1..];
    }
  }

  lemma NodeOpsEmpty(id: string, c: WorkflowGraph, t: WorkflowGraph)
    requires id in t.nodes
    ensures NodeOps(id, c, t) == [] <==>
      && Kept(id, c, t)
      && c.nodes[id].pos == t.nodes[id].pos
      && c.nodes[id].semantics == t.nodes[id].semantics
      && ParamsBound(t.nodes[id], c.nodes[id])
  {
    if Kept(id, c, t) && t.nodes[id].params.Obj? && c.nodes[id].params.Obj? {
      var target := t.nodes[id].params.fields;
      ParamOpsEmpty(id, SortedKeys(target.Keys), target, c.nodes[id].params.fields);
    }
  }

  lemma {:induction false} NodesOpsEmpty(ids: seq<string>, c: WorkflowGraph, t: WorkflowGraph)
    requires forall id | id in ids :: id in t.nodes
    ensures NodesOps(ids, c, t) == [] <==> forall id | id in ids :: NodeOps(id, c, t) == []
  {
    if ids != [] {
      NodesOpsEmpty(ids[1..], c, t);
      assert forall id :: id in ids <==> id == ids[0] || id in ids[1..];
    }
  }

  lemma {:induction false} DropOpsEmpty(ids: seq<string>, t: WorkflowGraph)
    ensures DropOps(ids, t) == [] <==> forall id | id in ids :: id in t.nodes
  {
    if ids != [] {
      DropOpsEmpty(ids[1..], t);
      assert forall id :: id in ids <==> id == ids[0] || id in ids[1..];
    }
  }

  lemma NodePhasesEmpty(c: WorkflowGraph, t: WorkflowGraph)
    ensures DropOps(SortedKeys(c.nodes.Keys), t) == [] && NodesOps(SortedKeys(t.nodes.Keys), c, t) == [] <==>
      Agrees(c, t)
  {
    DropOpsEmpty(SortedKeys(c.nodes.Keys), t);
    NodesOpsEmpty(SortedKeys(t.nodes.Keys), c, t);
    forall id | id in t.nodes { NodeOpsEmpty(id, c, t); }
    assert forall id | id in t.nodes :: id in SortedKeys(t.nodes.Keys);
    assert forall id | id in c.nodes :: id in SortedKeys(c.nodes.Keys);
  }

  /** A diff is empty exactly when there is nothing to change. */
  lemma DiffEmptyExactly(c: WorkflowGraph, t: WorkflowGraph)
    ensures DiffOps(c, t) == [] <==> Agrees(c, t) && forall e :: e in c.edges <==> e in t.edges
  {
    NodePhasesEmpty(c, t);
    SortedDifference(c.edges, t.edges);
    SortedDifference(t.edges, c.edges);
    var removed, added := RemovedEdges(c, t), AddedEdges(c, t);
    assert RemoveEdgeOps(removed) == [] <==> removed == [];
    assert AddEdgeOps(added) == [] <==> added == [];
    assert removed != [] ==> removed[0] in removed;
    assert added != [] ==> added[0] in added;
  }

  function LostIn(c: WorkflowGraph, t: WorkflowGraph): GraphEdge -> bool { e => Lost(e, c, t) }

  lemma ReachedAgrees(c: WorkflowGraph, t: WorkflowGraph)
    ensures Agrees(Reaches(c, t), t)
  {
    forall id | id in t.nodes ensures ParamsBound(t.nodes[id], Reaches(c, t).nodes[id]) {}
  }

  /** Diffing again yields only additions of the edges lost to retyped nodes. */
  lemma SecondDiff(c: WorkflowGraph, t: WorkflowGraph)
    ensures DiffOps(Reaches(c, t), t) == AddEdgeOps(Sort(Filter(t.edges, LostIn(c, t)), EdgeLeq))
  {
    var r := Reaches(c, t);
    ReachedAgrees(c, t);
    ReachedEdges(c, t);
    NodePhasesEmpty(r, t);
    FilterNone(r.edges, NotIn(t.edges));
    assert RemovedEdges(r, t) == [];
    FilterSame(t.edges, NotIn(r.edges), LostIn(c, t));
    assert AddedEdges(r, t) == Sort(Filter(t.edges, LostIn(c, t)), EdgeLeq);
  }

  lemma AgreeingLosesNothing(c: WorkflowGraph, t: WorkflowGraph)
    requires Agrees(c, t)
    ensures forall e :: !Lost(e, c, t)
  {
    assert Gone(c, t) == {};
  }

  lemma OneRound(c: WorkflowGraph, t: WorkflowGraph)
    ensures DiffOps(Reaches(c, t), t) == [] <==> forall e :: !Lost(e, c, t)
  {
    ReachedAgrees(c, t);
    ReachedEdges(c, t);
    DiffEmptyExactly(Reaches(c, t), t);
  }

  /** One round is a fixpoint exactly when no edge was lost; two rounds always are. */
  lemma TwoRoundsSuffice(c: WorkflowGraph, t: WorkflowGraph)
    requires StaleEdgesOnce(c, t)
    ensures ApplyOps(c, DiffOps(c, t)).Ok?
    ensures var once := ApplyOps(c, DiffOps(c, t)).value;
      && (DiffOps(once, t) == [] <==> forall e :: !Lost(e, c, t))
      && ApplyOps(once, DiffOps(once, t)).Ok?
      && DiffOps(ApplyOps(once, DiffOps(once, t)).value, t) == []
  {
    var once := Reaches(c, t);
    ApplyingDiff(c, t);
    OneRound(c, t);
    assert StaleEdgesOnce(once, t) by { ReachedEdges(c, t); }
    ApplyingDiff(once, t);
    ReachedAgrees(c, t);
    AgreeingLosesNothing(once, t);
    OneRound(once, t);
  }

  /** A retyped node costs its edge for one round: the input that shows it. */
  lemma RetypingLosesAnEdge() returns (c: WorkflowGraph, t: WorkflowGraph, e: GraphEdge)
    ensures EdgeClosed(c) && EdgeClosed(t) && c.edges == t.edges == [e] && Unique(c.edges)
    ensures ApplyOps(c, DiffOps(c, t)).Ok? && e !in ApplyOps(c, DiffOps(c, t)).value.edges
  {
    var a := GraphNode("input.text", "A", Obj(map[]), Point(0, 0), None, None);
    var b := GraphNode("image.generate", "B", Obj(map[]), Point(240, 0), None, None);
    e := GraphEdge(Port("a", "text"), Port("b", "prompt"), "text");
    c := WorkflowGraph(1, None, map["a" := a, "b" := b], [e]);
    t := WorkflowGraph(1, None, map["a" := a, "b" := b.(nodeType := "image.edit")], [e]);
    assert "b" in c.nodes && "b" in t.nodes && c.nodes["b"].nodeType != t.nodes["b"].nodeType;
    assert "b" in Gone(c, t);
    assert multiset(c.edges)[e] == 1;
    DiffConverges(c, t);
    assert Lost(e, c, t);
  }

  /** A repeated reference edge that the target drops: its first removal takes both copies,
      so the second finds none and the diff does not apply. */
  lemma RepeatedStaleEdgeFails() returns (c: WorkflowGraph, t: WorkflowGraph, e: GraphEdge)
    ensures EdgeClosed(c) && EdgeClosed(t) && c.edges == [e, e] && t.edges == [] && e.to.name == "in"
    ensures ApplyOps(c, DiffOps(c, t)).Err?
  {
    var a := GraphNode("input.image", "A", Obj(map["storage_uri" := Str("a.png")]), Point(0, 0), None, None);
    e := GraphEdge(Port("a", "image"), Port("b", "in"), "image");
    c := WorkflowGraph(1, None, map["a" := a, "b" := a.(title := "B", pos := Point(240, 0))], [e, e]);
    t := c.(edges := []);
    assert e in c.edges && e !in t.edges && multiset(c.edges)[e] == 2;
    ApplyingDiff(c, t);
  }
}
