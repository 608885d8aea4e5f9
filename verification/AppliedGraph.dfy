/** What a compiled diff makes of the current graph, beyond edges and nodes: whether the
    applied graph still is a sound workflow for the plan. */
module AppliedGraph {
  import opened Graph
  import opened Topology
  import opened ProposalDiff
  import opened Convergence
  import opened Intent
  import opened GraphBuilder
  import opened BuiltGraph

  /** The graph that applying the diff reaches. */
  function Applied(c: WorkflowGraph, t: WorkflowGraph): WorkflowGraph
    requires StaleEdgesOnce(c, t)
  {
    ApplyingDiff(c, t);
    ApplyOps(c, DiffOps(c, t)).value
  }

  /** An edge into the port survives the diff. */
  ghost predicate EdgeSurvives(c: WorkflowGraph, t: WorkflowGraph, id: string, port: string) {
    exists e | e in t.edges :: e.to == Port(id, port) && !Lost(e, c, t)
  }

  /** The target gives the port a value, or is silent and the kept node has one. */
  predicate ValueSurvives(c: WorkflowGraph, t: WorkflowGraph, id: string, port: string)
    requires id in t.nodes && t.nodes[id].params.Obj?
  {
    if port in t.nodes[id].params.fields then NonNull(t.nodes[id].params.fields, port)
    else Kept(id, c, t) && c.nodes[id].params.Obj? && NonNull(c.nodes[id].params.fields, port)
  }

  /** The stage's node in the current graph, if kept, has params to merge into, and after the
      diff each required port has an edge or a value. */
  ghost predicate StillFed(env: Env, c: WorkflowGraph, t: WorkflowGraph, stage: Stage)
    requires StageComplete(env, t, stage)
  {
    var id := stage.stageId;
    && (Kept(id, c, t) ==> c.nodes[id].params.Obj?)
    && forall port | port in StageDefinition(env, stage).value.inputs && port.required ::
        EdgeSurvives(c, t, id, port.name) || ValueSurvives(c, t, id, port.name)
  }

  lemma AppliedEdges(c: WorkflowGraph, t: WorkflowGraph, id: string, port: string)
    requires StaleEdgesOnce(c, t)
    ensures Wired(Applied(c, t).edges, id, port) <==> EdgeSurvives(c, t, id, port)
  {
    DiffConverges(c, t);
    var r := Applied(c, t);
    assert forall e :: e in r.edges <==> e in t.edges && !Lost(e, c, t);
  }

  lemma AppliedNode(c: WorkflowGraph, t: WorkflowGraph, id: string)
    requires StaleEdgesOnce(c, t) && id in t.nodes && t.nodes[id].params.Obj?
    ensures var r := Applied(c, t);
      && id in r.nodes && r.nodes[id].nodeType == t.nodes[id].nodeType && r.nodes[id].semantics == t.nodes[id].semantics
      && (r.nodes[id].params.Obj? <==> (Kept(id, c, t) ==> c.nodes[id].params.Obj?))
      && (r.nodes[id].params.Obj? ==> forall k ::
            && (k in t.nodes[id].params.fields ==> k in r.nodes[id].params.fields)
            && (NonNull(r.nodes[id].params.fields, k) <==> ValueSurvives(c, t, id, k)))
  {
    ApplyingDiff(c, t);
    assert Applied(c, t).nodes[id] == Desired(id, c, t);
  }

  lemma StageCompleteExactly(env: Env, c: WorkflowGraph, t: WorkflowGraph, stage: Stage)
    requires StaleEdgesOnce(c, t) && StageComplete(env, t, stage)
    ensures StageComplete(env, Applied(c, t), stage) <==> StillFed(env, c, t, stage)
  {
    var id := stage.stageId;
    AppliedNode(c, t, id);
    forall port | port in StageDefinition(env, stage).value.inputs {
      AppliedEdges(c, t, id, port.name);
    }
  }

  lemma AppliedPortsMatch(env: Env, c: WorkflowGraph, t: WorkflowGraph)
    requires StaleEdgesOnce(c, t) && EdgeClosed(t) && forall e | e in t.edges :: PortsMatch(env, t, e)
    ensures EdgeClosed(Applied(c, t)) && forall e | e in Applied(c, t).edges :: PortsMatch(env, Applied(c, t), e)
  {
    DiffConverges(c, t);
    var r := Applied(c, t);
    forall e | e in r.edges ensures e.from.node in r.nodes && e.to.node in r.nodes && PortsMatch(env, r, e) {
      assert e in t.edges && PortsMatch(env, t, e);
    }
  }

  lemma AppliedIsAcyclic(c: WorkflowGraph, t: WorkflowGraph)
    requires StaleEdgesOnce(c, t) && EdgeClosed(t) && exists order :: IsOrder(t, order)
    ensures EdgeClosed(Applied(c, t)) && exists order :: IsOrder(Applied(c, t), order)
  {
    DiffConverges(c, t);
    var order :| IsOrder(t, order);
    assert IsOrder(Applied(c, t), order);
  }

  /** Applying the diff of a sound target gives a sound graph exactly when every stage is still
      fed: the edges lost to retyped nodes leave no required port without an edge or a value,
      and no kept stage node has params that are not an object. */
  lemma AppliedIsSoundExactly(env: Env, p: IntentPlan, c: WorkflowGraph, t: WorkflowGraph)
    requires StaleEdgesOnce(c, t) && GraphSound(env, p, t)
    ensures GraphSound(env, p, Applied(c, t)) <==> forall i | 0 <= i < |p.stages| :: StillFed(env, c, t, p.stages[i])
  {
    AppliedIsAcyclic(c, t);
    if TextInputsRegistered(env) {
      AppliedPortsMatch(env, c, t);
    }
    forall i | 0 <= i < |p.stages| {
      StageCompleteExactly(env, c, t, p.stages[i]);
    }
  }

  /** In particular it is sound when no edge is lost and kept nodes have object params. */
  lemma NothingLostIsSound(env: Env, p: IntentPlan, c: WorkflowGraph, t: WorkflowGraph)
    requires StaleEdgesOnce(c, t) && GraphSound(env, p, t)
    requires (forall e :: !Lost(e, c, t)) && forall id | Kept(id, c, t) :: c.nodes[id].params.Obj?
    ensures GraphSound(env, p, Applied(c, t))
  {
    forall i | 0 <= i < |p.stages| ensures StillFed(env, c, t, p.stages[i]) {
      assert StageComplete(env, t, p.stages[i]);
    }
    AppliedIsSoundExactly(env, p, c, t);
  }
}
