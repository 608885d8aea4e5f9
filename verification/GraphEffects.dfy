/** When a proposal's operation applies, what it then changes and what error it has otherwise
    (crates/graph/src/lib.rs:269-339). */
module GraphEffects {
  import opened Json
  import opened Ordering
  import opened Seqs
  import opened Graph

  /** Nothing but the node `id` may differ. */
  predicate OnlyNode(g: WorkflowGraph, r: WorkflowGraph, id: string) {
    && r.(nodes := g.nodes) == g && r.nodes.Keys == g.nodes.Keys
    && forall x | x in g.nodes && x != id :: r.nodes[x] == g.nodes[x]
  }

  lemma AddingANode(g: WorkflowGraph, id: string, node: GraphNode)
    ensures var r := ApplyOp(g, AddNode(id, node));
      if id in g.nodes then r == Err(DuplicateNode(id))
      else
        && r.Ok? && r.value.(nodes := g.nodes) == g && r.value.nodes.Keys == g.nodes.Keys + {id}
        && r.value.nodes[id] == node && forall x | x in g.nodes :: r.value.nodes[x] == g.nodes[x]
  {
  }

  function AwayFrom(id: string): GraphEdge -> bool { (e: GraphEdge) => e.from.node != id && e.to.node != id }
  function OtherEdge(edge: GraphEdge): GraphEdge -> bool { (e: GraphEdge) => e != edge }

  /** With a node go the edges that touch it. */
  lemma RemovingANode(g: WorkflowGraph, id: string)
    ensures var r := ApplyOp(g, RemoveNode(id));
      if id !in g.nodes then r == Err(MissingNode(id))
      else
        && r.Ok? && r.value.(nodes := g.nodes, edges := g.edges) == g && r.value.nodes.Keys == g.nodes.Keys - {id}
        && (forall x | x in r.value.nodes :: r.value.nodes[x] == g.nodes[x])
        && Thinned(g.edges, r.value.edges, AwayFrom(id))
  {
    forall e | e in g.edges ensures Avoiding({id})(e) == AwayFrom(id)(e) {}
    FilterIsThinned(g.edges, Avoiding({id}), AwayFrom(id));
  }

  /** A param is set unless another value than the expected one is there; no expectation fits all. */
  lemma SettingAParam(g: WorkflowGraph, id: string, key: string, prev: Option<Value>, value: Value)
    ensures var r := ApplyOp(g, SetParam(id, key, prev, value));
      if id !in g.nodes then r == Err(MissingNode(id))
      else if !g.nodes[id].params.Obj? then r == Err(ParamsNotObject(id))
      else
        var fields := g.nodes[id].params.fields;
        if prev == None || (key in fields && prev == Some(fields[key])) then
          && r.Ok? && OnlyNode(g, r.value, id) && r.value.nodes[id].params.Obj?
          && r.value.nodes[id].(params := g.nodes[id].params) == g.nodes[id]
          && var after := r.value.nodes[id].params.fields;
          && after.Keys == fields.Keys + {key} && after[key] == value
          && forall k | k in fields && k != key :: after[k] == fields[k]
        else r == Err(SetParamConflict(id, key))
  {
  }

  /** Every copy of a removed edge goes, so that it must be there at least once; adding puts one
      more copy last, whatever is there. */
  lemma AddingAndRemovingEdges(g: WorkflowGraph, edge: GraphEdge)
    ensures var r := ApplyOp(g, AddEdge(edge));
      r.Ok? && r.value.(edges := g.edges) == g && r.value.edges == g.edges + [edge]
    ensures var r := ApplyOp(g, RemoveEdge(edge));
      if edge !in g.edges then r == Err(MissingEdge(edge))
      else r.Ok? && r.value.(edges := g.edges) == g && Thinned(g.edges, r.value.edges, OtherEdge(edge))
  {
    RetainShortens(g.edges, edge);
    forall e | e in g.edges ensures OtherThan(edge)(e) == OtherEdge(edge)(e) {}
    FilterIsThinned(g.edges, OtherThan(edge), OtherEdge(edge));
  }

  /** Moving, resizing and binding change that one field of that one node. */
  lemma ChangingANode(g: WorkflowGraph, id: string, p: Point, semantics: Option<Semantics>)
    ensures id !in g.nodes ==>
      && ApplyOp(g, MoveNode(id, p)) == Err(MissingNode(id)) && ApplyOp(g, ResizeNode(id, p)) == Err(MissingNode(id))
      && ApplyOp(g, SetSemantics(id, semantics)) == Err(MissingNode(id))
    ensures id in g.nodes ==>
      var moved, sized := ApplyOp(g, MoveNode(id, p)), ApplyOp(g, ResizeNode(id, p));
      && moved.Ok? && OnlyNode(g, moved.value, id)
      && moved.value.nodes[id].pos == p && moved.value.nodes[id].(pos := g.nodes[id].pos) == g.nodes[id]
      && sized.Ok? && OnlyNode(g, sized.value, id)
      && sized.value.nodes[id].size == Some(p) && sized.value.nodes[id].(size := g.nodes[id].size) == g.nodes[id]
    ensures id in g.nodes ==>
      var bound := ApplyOp(g, SetSemantics(id, semantics));
      && bound.Ok? && OnlyNode(g, bound.value, id) && bound.value.nodes[id].semantics == semantics
      && bound.value.nodes[id].(semantics := g.nodes[id].semantics) == g.nodes[id]
  {
  }
}
