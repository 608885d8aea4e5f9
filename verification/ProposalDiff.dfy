/** The edit script from the current graph to a compiled target
    (crates/compiler/src/proposal_diff.rs). */
module ProposalDiff {
  import opened Json
  import opened Ordering
  import opened Seqs
  import opened Graph

  // ----- the order of edges -----

  predicate PortLeq(a: Port, b: Port) {
    if a.node != b.node then StrLeq(a.node, b.node) else StrLeq(a.name, b.name)
  }

  predicate EdgeLeq(a: GraphEdge, b: GraphEdge) {
    if a.from != b.from then PortLeq(a.from, b.from) else PortLeq(a.to, b.to)
  }

  lemma PortLeqOrder(a: Port, b: Port, c: Port)
    ensures PortLeq(a, b) || PortLeq(b, a)
    ensures PortLeq(a, b) && PortLeq(b, c) ==> PortLeq(a, c)
    ensures PortLeq(a, b) && PortLeq(b, a) ==> a == b
  {
    StrLeqTotal(a.node, b.node);
    StrLeqTotal(a.name, b.name);
    if PortLeq(a, b) && PortLeq(b, a) {
      if a.node != b.node { StrLeqAntisymmetric(a.node, b.node); } else { StrLeqAntisymmetric(a.name, b.name); }
    }
    if PortLeq(a, b) && PortLeq(b, c) {
      if a.node == b.node == c.node {
        StrLeqTransitive(a.name, b.name, c.name);
      } else {
        StrLeqTotal(a.node, a.node);
        StrLeqTotal(b.node, b.node);
        StrLeqTransitive(a.node, b.node, c.node);
        if a.node == c.node { StrLeqAntisymmetric(a.node, b.node); }
      }
    }
  }

  lemma EdgeLeqPreorder()
    ensures Preorder(EdgeLeq)
  {
    forall a, b ensures EdgeLeq(a, b) || EdgeLeq(b, a) {
      PortLeqOrder(a.from, b.from, b.from);
      PortLeqOrder(a.to, b.to, b.to);
    }
    forall a, b, c | EdgeLeq(a, b) && EdgeLeq(b, c) ensures EdgeLeq(a, c) {
      PortLeqOrder(a.from, b.from, c.from);
      PortLeqOrder(b.from, a.from, a.from);
      PortLeqOrder(a.to, b.to, c.to);
    }
  }

  // ----- the script, phase by phase -----

  function RemovedEdges(c: WorkflowGraph, t: WorkflowGraph): seq<GraphEdge> {
    Sort(Filter(c.edges, NotIn(t.edges)), EdgeLeq)
  }

  function AddedEdges(c: WorkflowGraph, t: WorkflowGraph): seq<GraphEdge> {
    Sort(Filter(t.edges, NotIn(c.edges)), EdgeLeq)
  }

  function RemoveEdgeOps(es: seq<GraphEdge>): seq<ProposalOp> {
    if es == [] then [] else [RemoveEdge(es[0])] + RemoveEdgeOps(es[1..])
  }

  function AddEdgeOps(es: seq<GraphEdge>): seq<ProposalOp> {
    if es == [] then [] else [AddEdge(es[0])] + AddEdgeOps(es[1..])
  }

  function DropOps(ids: seq<string>, t: WorkflowGraph): seq<ProposalOp> {
    if ids == [] then []
    else if ids[0] in t.nodes then DropOps(ids[1..], t)
    else [RemoveNode(ids[0])] + DropOps(ids[1..], t)
  }

  function ParamOps(
    id: string, keys: seq<string>, target: map<string, Value>, held: map<string, Value>): seq<ProposalOp>
    requires forall k | k in keys :: k in target
  {
    if keys == [] then []
    else if Lookup(held, keys[0]) == Some(target[keys[0]]) then ParamOps(id, keys[1..], target, held)
    else [SetParam(id, keys[0], Lookup(held, keys[0]), target[keys[0]])] + ParamOps(id, keys[1..], target, held)
  }

  function ParamPart(id: string, node: GraphNode, existing: GraphNode): seq<ProposalOp> {
    if node.params.Obj? && existing.params.Obj?
    then ParamOps(id, SortedKeys(node.params.fields.Keys), node.params.fields, existing.params.fields)
    else []
  }

  function KeptOps(id: string, node: GraphNode, existing: GraphNode): seq<ProposalOp> {
    ParamPart(id, node, existing)
    + (if existing.pos != node.pos then [MoveNode(id, node.pos)] else [])
    + (if existing.semantics != node.semantics then [SetSemantics(id, node.semantics)] else [])
  }

  function NodeOps(id: string, c: WorkflowGraph, t: WorkflowGraph): seq<ProposalOp>
    requires id in t.nodes
  {
    if id !in c.nodes then [AddNode(id, t.nodes[id])]
    else if c.nodes[id].nodeType != t.nodes[id].nodeType then [RemoveNode(id), AddNode(id, t.nodes[id])]
    else KeptOps(id, t.nodes[id], c.nodes[id])
  }

  function NodesOps(ids: seq<string>, c: WorkflowGraph, t: WorkflowGraph): seq<ProposalOp>
    requires forall id | id in ids :: id in t.nodes
  {
    if ids == [] then [] else NodeOps(ids[0], c, t) + NodesOps(ids[1..], c, t)
  }

  function DiffOps(c: WorkflowGraph, t: WorkflowGraph): seq<ProposalOp> {
    RemoveEdgeOps(RemovedEdges(c, t))
    + DropOps(SortedKeys(c.nodes.Keys), t)
    + NodesOps(SortedKeys(t.nodes.Keys), c, t)
    + AddEdgeOps(AddedEdges(c, t))
  }

  // ----- the order of the script -----

  /** By source node, source port, target node and target port, as texts compare. */
  predicate EdgeBefore(a: GraphEdge, b: GraphEdge) {
    if a.from.node != b.from.node then StrLeq(a.from.node, b.from.node)
    else if a.from.name != b.from.name then StrLeq(a.from.name, b.from.name)
    else if a.to.node != b.to.node then StrLeq(a.to.node, b.to.node)
    else StrLeq(a.to.name, b.to.name)
  }

  /** The edges of `a` that are not in `b`, each as often as there, in order. */
  ghost predicate OrderedRest(a: seq<GraphEdge>, b: seq<GraphEdge>, es: seq<GraphEdge>) {
    && (forall e :: multiset(es)[e] == if e in b then 0 else multiset(a)[e])
    && forall i, j | 0 <= i < j < |es| :: EdgeBefore(es[i], es[j])
  }

  lemma SortedRest(a: seq<GraphEdge>, b: seq<GraphEdge>)
    ensures OrderedRest(a, b, Sort(Filter(a, NotIn(b)), EdgeLeq))
  {
    EdgeLeqPreorder();
    SortSorts(Filter(a, NotIn(b)), EdgeLeq);
    forall e { FilterCount(a, NotIn(b), e); }
    var es := Sort(Filter(a, NotIn(b)), EdgeLeq);
    forall i, j | 0 <= i < j < |es| ensures EdgeBefore(es[i], es[j]) {
      assert EdgeLeq(es[i], es[j]);
      StrLeqTotal(es[i].from.name, es[i].from.name);
      StrLeqTotal(es[i].to.name, es[i].to.name);
    }
  }

  function Removals(es: seq<GraphEdge>): seq<ProposalOp> {
    seq(|es|, i requires 0 <= i < |es| => RemoveEdge(es[i]))
  }

  function Additions(es: seq<GraphEdge>): seq<ProposalOp> {
    seq(|es|, i requires 0 <= i < |es| => AddEdge(es[i]))
  }

  function Drops(ids: seq<string>): seq<ProposalOp> {
    seq(|ids|, i requires 0 <= i < |ids| => RemoveNode(ids[i]))
  }

  lemma {:induction false} EdgeScripts(es: seq<GraphEdge>)
    ensures RemoveEdgeOps(es) == Removals(es) && AddEdgeOps(es) == Additions(es)
  {
    if es != [] { EdgeScripts(es[1..]); }
  }

  lemma IncreasingTail(ids: seq<string>)
    requires ids != [] && Increasing(ids)
    ensures Increasing(ids[1..]) && forall id | id in ids[1..] :: StrLeq(ids[0], id) && id != ids[0]
    ensures forall id :: id in ids <==> id == ids[0] || id in ids[1..]
  {
  }

  lemma {:induction false} DropScript(ids: seq<string>, t: WorkflowGraph) returns (gone: seq<string>)
    requires Increasing(ids)
    ensures Increasing(gone) && forall id :: id in gone <==> id in ids && id !in t.nodes
    ensures DropOps(ids, t) == Drops(gone)
  {
    gone := [];
    if ids != [] {
      IncreasingTail(ids);
      gone := DropScript(ids[1..], t);
      if ids[0] !in t.nodes {
        IncreasingCons(ids[0], gone);
        gone := [ids[0]] + gone;
      }
    }
  }

  /** The keys whose value is not held. */
  predicate Differs(k: string, held: map<string, Value>, target: map<string, Value>) {
    k in target && !(k in held && held[k] == target[k])
  }

  /** Setting a key to the target's value, with what is held as the expectation. */
  predicate SetsKey(op: ProposalOp, id: string, k: string, held: map<string, Value>, target: map<string, Value>) {
    k in target && op == SetParam(id, k, if k in held then Some(held[k]) else None, target[k])
  }

  ghost predicate SetsKeys(
    sets: seq<ProposalOp>, id: string, keys: seq<string>, held: map<string, Value>, target: map<string, Value>) {
    |sets| == |keys| && forall i | 0 <= i < |keys| :: SetsKey(sets[i], id, keys[i], held, target)
  }

  /** One `SetParam` for every key that differs, by increasing keys; none unless both are objects. */
  ghost predicate ParamScript(id: string, held: Value, target: Value, sets: seq<ProposalOp>) {
    if !held.Obj? || !target.Obj? then sets == []
    else exists keys ::
      && Increasing(keys) && SetsKeys(sets, id, keys, held.fields, target.fields)
      && forall k :: k in keys <==> Differs(k, held.fields, target.fields)
  }

  lemma OneSetMore(
    sets: seq<ProposalOp>, id: string, keys: seq<string>, held: map<string, Value>, target: map<string, Value>,
    k: string, op: ProposalOp)
    requires SetsKeys(sets, id, keys, held, target) && SetsKey(op, id, k, held, target)
    ensures SetsKeys([op] + sets, id, [k] + keys, held, target)
  {
  }

  lemma {:induction false} ParamOpsAre(
    id: string, ks: seq<string>, target: map<string, Value>, held: map<string, Value>) returns (keys: seq<string>)
    requires Increasing(ks) && forall k | k in ks :: k in target
    ensures Increasing(keys) && SetsKeys(ParamOps(id, ks, target, held), id, keys, held, target)
    ensures forall k :: k in keys <==> k in ks && Differs(k, held, target)
  {
    keys := [];
    if ks != [] {
      IncreasingTail(ks);
      keys := ParamOpsAre(id, ks[1..], target, held);
      if Differs(ks[0], held, target) {
        var op := SetParam(id, ks[0], Lookup(held, ks[0]), target[ks[0]]);
        OneSetMore(ParamOps(id, ks[1..], target, held), id, keys, held, target, ks[0], op);
        IncreasingCons(ks[0], keys);
        keys := [ks[0]] + keys;
      }
    }
  }

  lemma ParamPartIs(id: string, node: GraphNode, existing: GraphNode)
    ensures ParamScript(id, existing.params, node.params, ParamPart(id, node, existing))
  {
    if node.params.Obj? && existing.params.Obj? {
      var target, held := node.params.fields, existing.params.fields;
      SortedKeysIncrease(target.Keys);
      var keys := ParamOpsAre(id, SortedKeys(target.Keys), target, held);
      assert forall k :: k in keys <==> Differs(k, held, target);
    }
  }

  /** What the script says of one node of the target: added, replaced, or brought to the target's
      params in the order of their keys, then its place, then its semantics. */
  ghost predicate NodeScript(id: string, c: WorkflowGraph, t: WorkflowGraph, ops: seq<ProposalOp>) {
    if id !in t.nodes then false
    else if id !in c.nodes then ops == [AddNode(id, t.nodes[id])]
    else if c.nodes[id].nodeType != t.nodes[id].nodeType then ops == [RemoveNode(id), AddNode(id, t.nodes[id])]
    else exists sets ::
      && ParamScript(id, c.nodes[id].params, t.nodes[id].params, sets)
      && ops == sets + (if c.nodes[id].pos != t.nodes[id].pos then [MoveNode(id, t.nodes[id].pos)] else [])
        + (if c.nodes[id].semantics != t.nodes[id].semantics then [SetSemantics(id, t.nodes[id].semantics)] else [])
  }

  lemma NodeOpsAre(id: string, c: WorkflowGraph, t: WorkflowGraph)
    requires id in t.nodes
    ensures NodeScript(id, c, t, NodeOps(id, c, t))
  {
    if id in c.nodes {
      ParamPartIs(id, t.nodes[id], c.nodes[id]);
    }
  }

  function Joined(parts: seq<seq<ProposalOp>>): seq<ProposalOp> {
    if parts == [] then [] else parts[0] + Joined(parts[1..])
  }

  lemma {:induction false} NodesScript(ids: seq<string>, c: WorkflowGraph, t: WorkflowGraph)
    returns (parts: seq<seq<ProposalOp>>)
    requires forall id | id in ids :: id in t.nodes
    ensures |parts| == |ids| && NodesOps(ids, c, t) == Joined(parts)
    ensures forall i | 0 <= i < |ids| :: NodeScript(ids[i], c, t, parts[i])
  {
    parts := [];
    if ids != [] {
      assert ids[0] in ids;
      NodeOpsAre(ids[0], c, t);
      var rest := NodesScript(ids[1..], c, t);
      parts := [NodeOps(ids[0], c, t)] + rest;
    }
  }

  /** The script in its order: stale edges, dropped nodes, the target's nodes by id, new edges. */
  lemma ScriptInOrder(c: WorkflowGraph, t: WorkflowGraph)
    returns (stale: seq<GraphEdge>, gone: seq<string>, ids: seq<string>, parts: seq<seq<ProposalOp>>,
             added: seq<GraphEdge>)
    ensures OrderedRest(c.edges, t.edges, stale) && OrderedRest(t.edges, c.edges, added)
    ensures Increasing(gone) && forall id :: id in gone <==> id in c.nodes && id !in t.nodes
    ensures Increasing(ids) && (forall id :: id in ids <==> id in t.nodes) && |parts| == |ids|
    ensures forall i | 0 <= i < |ids| :: NodeScript(ids[i], c, t, parts[i])
    ensures DiffOps(c, t) == Removals(stale) + Drops(gone) + Joined(parts) + Additions(added)
  {
    stale, added, ids := RemovedEdges(c, t), AddedEdges(c, t), SortedKeys(t.nodes.Keys);
    SortedRest(c.edges, t.edges);
    SortedRest(t.edges, c.edges);
    EdgeScripts(stale);
    EdgeScripts(added);
    SortedKeysIncrease(c.nodes.Keys);
    SortedKeysIncrease(t.nodes.Keys);
    gone := DropScript(SortedKeys(c.nodes.Keys), t);
    parts := NodesScript(ids, c, t);
  }

  // ----- the loops -----

  method DiffParams(id: string, keys: seq<string>, target: map<string, Value>, held: map<string, Value>)
    returns (ops: seq<ProposalOp>)
    requires forall k | k in keys :: k in target
    ensures ops == ParamOps(id, keys, target, held)
  {
    ops := [];
    for i := 0 to |keys|
      invariant ops + ParamOps(id, keys[i..], target, held) == ParamOps(id, keys, target, held)
    {
      var prev := Lookup(held, keys[i]);
      if prev != Some(target[keys[i]]) {
        ops := ops + [SetParam(id, keys[i], prev, target[keys[i]])];
      }
      assert keys[i..][1..] == keys[i + 1..];
    }
  }

  method DiffNode(id: string, c: WorkflowGraph, t: WorkflowGraph) returns (ops: seq<ProposalOp>)
    requires id in t.nodes
    ensures ops == NodeOps(id, c, t)
  {
    var node := t.nodes[id];
    if id !in c.nodes {
      ops := [AddNode(id, node)];
    } else if c.nodes[id].nodeType != node.nodeType {
      ops := [RemoveNode(id), AddNode(id, node)];
    } else {
      var existing := c.nodes[id];
      ops := [];
      if node.params.Obj? && existing.params.Obj? {
        ops := DiffParams(id, SortedKeys(node.params.fields.Keys), node.params.fields, existing.params.fields);
      }
      if existing.pos != node.pos {
        ops := ops + [MoveNode(id, node.pos)];
      }
      if existing.semantics != node.semantics {
        ops := ops + [SetSemantics(id, node.semantics)];
      }
    }
  }

  method DiffRemoved(es: seq<GraphEdge>) returns (ops: seq<ProposalOp>)
    ensures ops == RemoveEdgeOps(es)
  {
    ops := [];
    for i := 0 to |es|
      invariant ops + RemoveEdgeOps(es[i..]) == RemoveEdgeOps(es)
    {
      ops := ops + [RemoveEdge(es[i])];
      assert es[i..][1..] == es[i + 1..];
    }
  }

  method DiffDropped(ids: seq<string>, t: WorkflowGraph) returns (ops: seq<ProposalOp>)
    ensures ops == DropOps(ids, t)
  {
    ops := [];
    for i := 0 to |ids|
      invariant ops + DropOps(ids[i..], t) == DropOps(ids, t)
    {
      if ids[i] !in t.nodes {
        ops := ops + [RemoveNode(ids[i])];
      }
      assert ids[i..][1..] == ids[i + 1..];
    }
  }

  method DiffNodes(ids: seq<string>, c: WorkflowGraph, t: WorkflowGraph) returns (ops: seq<ProposalOp>)
    requires forall id | id in ids :: id in t.nodes
    ensures ops == NodesOps(ids, c, t)
  {
    ops := [];
    for i := 0 to |ids|
      invariant ops + NodesOps(ids[i..], c, t) == NodesOps(ids, c, t)
    {
      var nodeOps := DiffNode(ids[i], c, t);
      ops := ops + nodeOps;
      assert ids[i..][1..] == ids[i + 1..];
    }
  }

  method DiffAdded(es: seq<GraphEdge>) returns (ops: seq<ProposalOp>)
    ensures ops == AddEdgeOps(es)
  {
    ops := [];
    for i := 0 to |es|
      invariant ops + AddEdgeOps(es[i..]) == AddEdgeOps(es)
    {
      ops := ops + [AddEdge(es[i])];
      assert es[i..][1..] == es[i + 1..];
    }
  }

  method Diff(c: WorkflowGraph, t: WorkflowGraph) returns (ops: seq<ProposalOp>)
    ensures ops == DiffOps(c, t)
  {
    var removed := DiffRemoved(RemovedEdges(c, t));
    var dropped := DiffDropped(SortedKeys(c.nodes.Keys), t);
    var nodeOps := DiffNodes(SortedKeys(t.nodes.Keys), c, t);
    var added := DiffAdded(AddedEdges(c, t));
    ops := removed + dropped + nodeOps + added;
  }
}
