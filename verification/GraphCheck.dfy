/** Structural validation of a workflow graph (crates/graph/src/lib.rs, `validate_graph`),
    and what it can still find in an assembled graph. */
module GraphCheck {
  import opened Json
  import opened Ordering
  import opened Graph
  import opened Topology
  import opened Intent
  import opened GraphBuilder
  import opened StagePlans
  import opened BuiltGraph

  /** The registry: node definitions, and whether params fit a type's schema. */
  datatype Registry = Registry(definitions: map<string, NodeDefinition>, paramsFit: (string, Value) -> bool)

  datatype Fault =
    | UnsupportedSchema(version: int)
    | InvalidNodeSize(id: string)
    | UnknownNodeType(nodeType: string)
    | ParamsRejected(nodeType: string)
    | MissingRequiredInput(id: string, port: string)
    | EndpointMissing(id: string)
    | MissingPort(id: string, port: string)
    | DuplicateInputConnection(id: string, port: string)
    | TypesDiffer(source: Port, target: Port)
    | Cycle

  // ----- nodes -----

  predicate Provided(g: WorkflowGraph, id: string, node: GraphNode, port: string) {
    Wired(g.edges, id, port) || (node.params.Obj? && NonNull(node.params.fields, port))
  }

  /** The first required input from position `k` on that nothing provides. */
  function UnprovidedFrom(
    g: WorkflowGraph, id: string, node: GraphNode, ports: seq<PortDefinition>, k: nat): Option<string>
    requires k <= |ports|
    decreases |ports| - k
  {
    if k == |ports| then None
    else if ports[k].required && !Provided(g, id, node, ports[k].name) then Some(ports[k].name)
    else UnprovidedFrom(g, id, node, ports, k + 1)
  }

  function NodeFault(reg: Registry, g: WorkflowGraph, id: string, node: GraphNode): Option<Fault> {
    if node.size.Some? && (node.size.value.x <= 0 || node.size.value.y <= 0) then Some(InvalidNodeSize(id))
    else if node.nodeType !in reg.definitions then Some(UnknownNodeType(node.nodeType))
    else if !reg.paramsFit(node.nodeType, node.params) then Some(ParamsRejected(node.nodeType))
    else
      var missing := UnprovidedFrom(g, id, node, reg.definitions[node.nodeType].inputs, 0);
      if missing.Some? then Some(MissingRequiredInput(id, missing.value)) else None
  }

  function NodesFault(reg: Registry, g: WorkflowGraph, ids: seq<string>): Option<Fault>
    requires forall id | id in ids :: id in g.nodes
  {
    if ids == [] then None else
      var fault := NodeFault(reg, g, ids[0], g.nodes[ids[0]]);
      if fault.Some? then fault else NodesFault(reg, g, ids[1..])
  }

  // ----- edges -----

  function DefinitionAt(reg: Registry, g: WorkflowGraph, id: string): Option<NodeDefinition> {
    if id in g.nodes && g.nodes[id].nodeType in reg.definitions
    then Some(reg.definitions[g.nodes[id].nodeType])
    else None
  }

  function TargetPort(reg: Registry, g: WorkflowGraph, e: GraphEdge): Option<PortDefinition> {
    var definition := DefinitionAt(reg, g, e.to.node);
    if definition.None? then None else PortNamed(definition.value.inputs, e.to.name)
  }

  predicate IsReference(port: PortDefinition) { port.name == "in" && !port.required && port.many }

  predicate TypesFit(source: PortType, target: PortDefinition, edgeType: string) {
    if IsReference(target) then edgeType == PortTypeLabel(source)
    else if edgeType == "artifact" then target.portType == Json
    else source == target.portType && edgeType == PortTypeLabel(source)
  }

  predicate ConnectedBefore(g: WorkflowGraph, i: nat)
    requires i < |g.edges|
  {
    exists j | 0 <= j < i :: g.edges[j].to == g.edges[i].to
  }

  function EdgeFault(reg: Registry, g: WorkflowGraph, i: nat): Option<Fault>
    requires i < |g.edges|
  {
    var e := g.edges[i];
    if e.from.node !in g.nodes then Some(EndpointMissing(e.from.node))
    else if e.to.node !in g.nodes then Some(EndpointMissing(e.to.node))
    else
      var source, target := DefinitionAt(reg, g, e.from.node), DefinitionAt(reg, g, e.to.node);
      if source.None? then Some(UnknownNodeType(g.nodes[e.from.node].nodeType))
      else if target.None? then Some(UnknownNodeType(g.nodes[e.to.node].nodeType))
      else
        var sp, tp := PortNamed(source.value.outputs, e.from.name), PortNamed(target.value.inputs, e.to.name);
        if sp.None? then Some(MissingPort(e.from.node, e.from.name))
        else if tp.None? then Some(MissingPort(e.to.node, e.to.name))
        else if !tp.value.many && ConnectedBefore(g, i) then Some(DuplicateInputConnection(e.to.node, e.to.name))
        else if !TypesFit(sp.value.portType, tp.value, e.edgeType) then Some(TypesDiffer(e.from, e.to))
        else None
  }

  function EdgesFault(reg: Registry, g: WorkflowGraph, i: nat): Option<Fault>
    requires i <= |g.edges|
    decreases |g.edges| - i
  {
    if i == |g.edges| then None else
      var fault := EdgeFault(reg, g, i);
      if fault.Some? then fault else EdgesFault(reg, g, i + 1)
  }

  ghost predicate Acyclic(g: WorkflowGraph) { exists order :: IsOrder(g, order) }

  /** The first fault of a graph, in the order of the checks. */
  ghost function GraphFault(reg: Registry, g: WorkflowGraph): Option<Fault> {
    if g.schemaVersion != 1 then Some(UnsupportedSchema(g.schemaVersion))
    else if NodesFault(reg, g, SortedKeys(g.nodes.Keys)).Some? then NodesFault(reg, g, SortedKeys(g.nodes.Keys))
    else if EdgesFault(reg, g, 0).Some? then EdgesFault(reg, g, 0)
    else if !Acyclic(g) then Some(Cycle)
    else None
  }

  // ----- the loops -----

  method CheckNodes(reg: Registry, g: WorkflowGraph) returns (r: Option<Fault>)
    ensures r == NodesFault(reg, g, SortedKeys(g.nodes.Keys))
  {
    var ids := SortedKeys(g.nodes.Keys);
    assert ids[0..] == ids;
    for k := 0 to |ids|
      invariant NodesFault(reg, g, ids[k..]) == NodesFault(reg, g, ids)
    {
      assert ids[k] in ids && ids[k..][1..] == ids[k + 1..];
      var fault := CheckNode(reg, g, ids[k], g.nodes[ids[k]]);
      if fault.Some? {
        return fault;
      }
    }
    return None;
  }

  method CheckNode(reg: Registry, g: WorkflowGraph, id: string, node: GraphNode) returns (r: Option<Fault>)
    ensures r == NodeFault(reg, g, id, node)
  {
    if node.size.Some? && (node.size.value.x <= 0 || node.size.value.y <= 0) {
      return Some(InvalidNodeSize(id));
    }
    if node.nodeType !in reg.definitions {
      return Some(UnknownNodeType(node.nodeType));
    }
    if !reg.paramsFit(node.nodeType, node.params) {
      return Some(ParamsRejected(node.nodeType));
    }
    var ports := reg.definitions[node.nodeType].inputs;
    for k := 0 to |ports|
      invariant UnprovidedFrom(g, id, node, ports, k) == UnprovidedFrom(g, id, node, ports, 0)
    {
      if ports[k].required && !Provided(g, id, node, ports[k].name) {
        return Some(MissingRequiredInput(id, ports[k].name));
      }
    }
    return None;
  }

  /** The connected single inputs are collected while the edges are walked. */
  method CheckEdges(reg: Registry, g: WorkflowGraph) returns (r: Option<Fault>)
    ensures r == EdgesFault(reg, g, 0)
  {
    var connected: set<Port> := {};
    for i := 0 to |g.edges|
      invariant EdgesFault(reg, g, i) == EdgesFault(reg, g, 0)
      invariant forall j | 0 <= j < i :: TargetPort(reg, g, g.edges[j]).Some?
      invariant forall port :: port in connected <==>
        exists j | 0 <= j < i :: g.edges[j].to == port && !TargetPort(reg, g, g.edges[j]).value.many
    {
      var e := g.edges[i];
      if e.from.node !in g.nodes {
        return Some(EndpointMissing(e.from.node));
      }
      if e.to.node !in g.nodes {
        return Some(EndpointMissing(e.to.node));
      }
      var source, target := DefinitionAt(reg, g, e.from.node), DefinitionAt(reg, g, e.to.node);
      if source.None? {
        return Some(UnknownNodeType(g.nodes[e.from.node].nodeType));
      }
      if target.None? {
        return Some(UnknownNodeType(g.nodes[e.to.node].nodeType));
      }
      var sp, tp := PortNamed(source.value.outputs, e.from.name), PortNamed(target.value.inputs, e.to.name);
      if sp.None? {
        return Some(MissingPort(e.from.node, e.from.name));
      }
      if tp.None? {
        return Some(MissingPort(e.to.node, e.to.name));
      }
      SameTarget(reg, g, i);
      assert !tp.value.many ==> (e.to in connected <==> ConnectedBefore(g, i));
      if !tp.value.many {
        if e.to in connected {
          return Some(DuplicateInputConnection(e.to.node, e.to.name));
        }
        connected := connected + {e.to};
      }
      if !TypesFit(sp.value.portType, tp.value, e.edgeType) {
        return Some(TypesDiffer(e.from, e.to));
      }
    }
    return None;
  }

  lemma SameTarget(reg: Registry, g: WorkflowGraph, i: nat)
    requires i < |g.edges|
    ensures forall j | 0 <= j < i && g.edges[j].to == g.edges[i].to ::
      TargetPort(reg, g, g.edges[j]) == TargetPort(reg, g, g.edges[i])
  {
  }

  method ValidateGraph(reg: Registry, g: WorkflowGraph) returns (r: Option<Fault>)
    ensures r == GraphFault(reg, g)
  {
    if g.schemaVersion != 1 {
      return Some(UnsupportedSchema(g.schemaVersion));
    }
    r := CheckNodes(reg, g);
    if r.Some? {
      return;
    }
    r := CheckEdges(reg, g);
    if r.Some? {
      return;
    }
    var order := TopologicalOrder(g);
    if order.Err? {
      return Some(Cycle);
    }
  }

  // ----- what acceptance means -----

  ghost predicate NodeValid(reg: Registry, g: WorkflowGraph, id: string)
    requires id in g.nodes
  {
    var node := g.nodes[id];
    && (node.size.Some? ==> node.size.value.x > 0 && node.size.value.y > 0)
    && node.nodeType in reg.definitions && reg.paramsFit(node.nodeType, node.params)
    && forall port | port in reg.definitions[node.nodeType].inputs && port.required :: Provided(g, id, node, port.name)
  }

  ghost predicate EdgeValid(reg: Registry, g: WorkflowGraph, e: GraphEdge) {
    && DefinitionAt(reg, g, e.from.node).Some? && DefinitionAt(reg, g, e.to.node).Some?
    && var sp := PortNamed(DefinitionAt(reg, g, e.from.node).value.outputs, e.from.name);
       sp.Some? && TargetPort(reg, g, e).Some? && TypesFit(sp.value.portType, TargetPort(reg, g, e).value, e.edgeType)
  }

  /** No single input has two edges. */
  ghost predicate SinglesOnce(reg: Registry, g: WorkflowGraph) {
    forall i, j | 0 <= j < i < |g.edges| && g.edges[j].to == g.edges[i].to ::
      TargetPort(reg, g, g.edges[i]).Some? ==> TargetPort(reg, g, g.edges[i]).value.many
  }

  ghost predicate Valid(reg: Registry, g: WorkflowGraph) {
    && g.schemaVersion == 1
    && (forall id | id in g.nodes :: NodeValid(reg, g, id))
    && (forall e | e in g.edges :: EdgeValid(reg, g, e))
    && SinglesOnce(reg, g)
    && Acyclic(g)
  }

  lemma {:induction false} UnprovidedMeaning(
    g: WorkflowGraph, id: string, node: GraphNode, ports: seq<PortDefinition>, k: nat)
    requires k <= |ports|
    ensures UnprovidedFrom(g, id, node, ports, k) == None <==>
      forall m | k <= m < |ports| && ports[m].required :: Provided(g, id, node, ports[m].name)
    decreases |ports| - k
  {
    if k < |ports| {
      UnprovidedMeaning(g, id, node, ports, k + 1);
    }
  }

  lemma NodeFaultMeaning(reg: Registry, g: WorkflowGraph, id: string)
    requires id in g.nodes
    ensures NodeFault(reg, g, id, g.nodes[id]) == None <==> NodeValid(reg, g, id)
  {
    if g.nodes[id].nodeType in reg.definitions {
      UnprovidedMeaning(g, id, g.nodes[id], reg.definitions[g.nodes[id].nodeType].inputs, 0);
    }
  }

  lemma {:induction false} NodesFaultMeaning(reg: Registry, g: WorkflowGraph, ids: seq<string>)
    requires forall id | id in ids :: id in g.nodes
    ensures NodesFault(reg, g, ids) == None <==> forall id | id in ids :: NodeValid(reg, g, id)
  {
    if ids != [] {
      NodeFaultMeaning(reg, g, ids[0]);
      NodesFaultMeaning(reg, g, ids[1..]);
      assert forall id :: id in ids <==> id == ids[0] || id in ids[1..];
    }
  }

  lemma EdgeFaultMeaning(reg: Registry, g: WorkflowGraph, i: nat)
    requires i < |g.edges|
    ensures EdgeFault(reg, g, i) == None <==>
      EdgeValid(reg, g, g.edges[i]) && (ConnectedBefore(g, i) ==> TargetPort(reg, g, g.edges[i]).value.many)
  {
  }

  lemma {:induction false} EdgesFaultMeaning(reg: Registry, g: WorkflowGraph, i: nat)
    requires i <= |g.edges|
    ensures EdgesFault(reg, g, i) == None <==> forall k | i <= k < |g.edges| :: EdgeFault(reg, g, k) == None
    decreases |g.edges| - i
  {
    if i < |g.edges| {
      EdgesFaultMeaning(reg, g, i + 1);
    }
  }

  lemma EdgesMeaning(reg: Registry, g: WorkflowGraph)
    ensures EdgesFault(reg, g, 0) == None <==> (forall e | e in g.edges :: EdgeValid(reg, g, e)) && SinglesOnce(reg, g)
  {
    EdgesFaultMeaning(reg, g, 0);
    forall k | 0 <= k < |g.edges| { EdgeFaultMeaning(reg, g, k); }
    if EdgesFault(reg, g, 0) == None {
      forall i, j | 0 <= j < i < |g.edges| && g.edges[j].to == g.edges[i].to && TargetPort(reg, g, g.edges[i]).Some?
        ensures TargetPort(reg, g, g.edges[i]).value.many
      {
        assert ConnectedBefore(g, i);
      }
    }
    if (forall e | e in g.edges :: EdgeValid(reg, g, e)) && SinglesOnce(reg, g) {
      forall k | 0 <= k < |g.edges| ensures EdgeFault(reg, g, k) == None {
        assert EdgeValid(reg, g, g.edges[k]);
      }
    }
  }

  /** Structural validation accepts exactly the valid graphs. */
  lemma AcceptsExactlyValid(reg: Registry, g: WorkflowGraph)
    ensures GraphFault(reg, g) == None <==> Valid(reg, g)
  {
    NodesFaultMeaning(reg, g, SortedKeys(g.nodes.Keys));
    EdgesMeaning(reg, g);
  }

  // ----- assembled graphs -----

  /** Validation looks inputs up by name alone: the first one of that name takes the type. */
  predicate FirstTakes(inputs: seq<PortDefinition>, name: string, portType: PortType) {
    var port := PortNamed(inputs, name);
    port.Some? && (IsReference(port.value) || port.value.portType == portType)
  }

  lemma MatchingIsValidExactly(env: Env, reg: Registry, g: WorkflowGraph, e: GraphEdge)
    requires reg.definitions == env.definitions
    requires e.from.node in g.nodes && e.to.node in g.nodes && PortsMatch(env, g, e)
    ensures var sp := PortNamed(env.definitions[g.nodes[e.from.node].nodeType].outputs, e.from.name);
      sp.Some? && (EdgeValid(reg, g, e) <==>
        FirstTakes(env.definitions[g.nodes[e.to.node].nodeType].inputs, e.to.name, sp.value.portType))
  {
    var target := env.definitions[g.nodes[e.to.node].nodeType];
    var sp := PortNamed(env.definitions[g.nodes[e.from.node].nodeType].outputs, e.from.name).value;
    var tp :| tp in target.inputs && tp.name == e.to.name && tp.portType == sp.portType;
    assert PortNamed(target.inputs, e.to.name).Some? by { PortIsNamed(target.inputs, tp); }
    NotArtifact(sp.portType);
  }

  lemma NotArtifact(t: PortType)
    ensures PortTypeLabel(t) != "artifact"
  {
    assert "text"[0] != "artifact"[0] && "image"[0] != "artifact"[0] && "video"[0] != "artifact"[0];
    assert "audio"[1] != "artifact"[1] && "mask"[0] != "artifact"[0] && "json"[0] != "artifact"[0];
  }

  lemma {:induction false} PortIsNamed(ports: seq<PortDefinition>, port: PortDefinition)
    requires port in ports
    ensures PortNamed(ports, port.name).Some?
  {
    if ports[0].name != port.name {
      PortIsNamed(ports[1..], port);
    }
  }

  /** The params of every node fit its schema. */
  ghost predicate ParamsFit(reg: Registry, g: WorkflowGraph) {
    forall id | id in g.nodes :: reg.paramsFit(g.nodes[id].nodeType, g.nodes[id].params)
  }

  lemma AssembledNodesValid(
    env: Env, p: IntentPlan, plans: seq<StagePlan>, reg: Registry, id: string)
    requires Compiled(env, p, plans) && Apart(p.stages, WholeDraft(p, plans)) && TextInputsRegistered(env)
    requires reg.definitions == env.definitions && id in Assembled(env, p, plans).nodes
    ensures var g := Assembled(env, p, plans);
      NodeValid(reg, g, id) <==> reg.paramsFit(g.nodes[id].nodeType, g.nodes[id].params)
  {
    var g := Assembled(env, p, plans);
    AssembledNodes(env, p, WholeDraft(p, plans));
    DraftKeys(p.stages, plans, |p.stages|);
    if id in SynthesizedIds(WholeDraft(p, plans).inputs) {
      TextNodeType(env, p, plans, id);
    } else {
      var i :| 0 <= i < |p.stages| && p.stages[i].stageId == id;
      ApartKeepsNodes(p.stages, plans, |p.stages|);
      StageNodeType(env, p, plans, i);
      AssembledStagesComplete(env, p, plans, i);
      StageNodeUnsized(env, p, plans, i);
    }
  }

  lemma StageNodeUnsized(env: Env, p: IntentPlan, plans: seq<StagePlan>, i: nat)
    requires Compiled(env, p, plans) && i < |p.stages|
    ensures plans[i].node.size == None
  {
    assert PlanSound(env, p.stages, i, plans[i]);
  }

  // ----- single inputs, seen from the plan -----

  /** No stage has two references that land on one single input. */
  ghost predicate ReferencesOnce(env: Env, stages: seq<Stage>) {
    forall i | 0 <= i < |stages| :: StageOnce(env, stages[i])
  }

  ghost predicate StageOnce(env: Env, stage: Stage) {
    forall a, b | 0 <= a < b < |stage.inputFrom| :: OnceAt(env, stage, a, b)
  }

  predicate OnceAt(env: Env, stage: Stage, a: nat, b: nat)
    requires a < b < |stage.inputFrom|
  {
    stage.inputFrom[a].output == stage.inputFrom[b].output ==> !SingleOf(env, stage, stage.inputFrom[a].output)
  }

  predicate SingleOf(env: Env, stage: Stage, port: string) {
    && StageDefinition(env, stage).Ok?
    && PortNamed(StageDefinition(env, stage).value.inputs, port).Some?
    && !PortNamed(StageDefinition(env, stage).value.inputs, port).value.many
  }

  function SingleAt(reg: Registry, g: WorkflowGraph): Port -> bool {
    (port: Port) =>
      var definition := DefinitionAt(reg, g, port.node);
      && definition.Some? && PortNamed(definition.value.inputs, port.name).Some?
      && !PortNamed(definition.value.inputs, port.name).value.many
  }

  /** No two edges end at one of these ports. */
  ghost predicate Once(edges: seq<GraphEdge>, single: Port -> bool) {
    forall x, y | 0 <= x < y < |edges| && edges[x].to == edges[y].to :: !single(edges[x].to)
  }

  lemma OnceJoin(a: seq<GraphEdge>, b: seq<GraphEdge>, single: Port -> bool)
    requires forall e, f | e in a && f in b :: e.to != f.to
    ensures Once(a + b, single) <==> Once(a, single) && Once(b, single)
  {
    var all := a + b;
    assert forall x | 0 <= x < |a| :: all[x] == a[x];
    assert forall y | 0 <= y < |b| :: all[|a| + y] == b[y];
    if Once(all, single) {
      forall x, y | 0 <= x < y < |b| && b[x].to == b[y].to ensures !single(b[x].to) {
        assert all[|a| + x].to == all[|a| + y].to;
      }
    }
    if Once(a, single) && Once(b, single) {
      forall x, y | 0 <= x < y < |all| && all[x].to == all[y].to ensures !single(all[x].to) {
        if x < |a| && y >= |a| {
          assert a[x] in a && b[y - |a|] in b;
        } else if x >= |a| {
          assert b[x - |a|].to == b[y - |a|].to;
        }
      }
    }
  }

  /** All edges of a plan end at its stage, and no two stages share an id. */
  ghost predicate EndAtStages(stages: seq<Stage>, plans: seq<StagePlan>) {
    && |plans| == |stages|
    && (forall i, e | 0 <= i < |plans| && e in plans[i].edges :: e.to.node == stages[i].stageId)
    && (forall i, j | 0 <= i < j < |stages| :: stages[i].stageId != stages[j].stageId)
  }

  lemma PlansEndAtStages(env: Env, stages: seq<Stage>, plans: seq<StagePlan>)
    requires StagesOrdered(stages) && |plans| == |stages| && PlansSound(env, stages, plans)
    ensures EndAtStages(stages, plans)
  {
    forall i, e | 0 <= i < |plans| && e in plans[i].edges ensures e.to.node == stages[i].stageId {
      assert PlanSound(env, stages, i, plans[i]);
    }
  }

  lemma {:induction false} OncePlans(stages: seq<Stage>, plans: seq<StagePlan>, n: nat, single: Port -> bool)
    requires EndAtStages(stages, plans) && n <= |plans|
    ensures Once(DraftOf(stages, plans, n).edges, single) <==> forall i | 0 <= i < n :: Once(plans[i].edges, single)
  {
    if n > 0 {
      OncePlans(stages, plans, n - 1, single);
      NoSharedTarget(stages, plans, n);
      OnceJoin(DraftOf(stages, plans, n - 1).edges, plans[n - 1].edges, single);
    }
  }

  lemma NoSharedTarget(stages: seq<Stage>, plans: seq<StagePlan>, n: nat)
    requires EndAtStages(stages, plans) && 0 < n <= |plans|
    ensures forall e, f | e in DraftOf(stages, plans, n - 1).edges && f in plans[n - 1].edges :: e.to != f.to
  {
    forall e | e in DraftOf(stages, plans, n - 1).edges ensures e.to.node != stages[n - 1].stageId {
      EdgeOrigin(stages, plans, n - 1, e);
    }
  }

  ghost predicate RefsOnce(stage: Stage, single: Port -> bool) {
    forall a, b | 0 <= a < b < |stage.inputFrom| && stage.inputFrom[a].output == stage.inputFrom[b].output ::
      !single(Port(stage.stageId, stage.inputFrom[a].output))
  }

  lemma RefsOnceMeaning(env: Env, stage: Stage, single: Port -> bool)
    requires forall port :: single(Port(stage.stageId, port)) <==> SingleOf(env, stage, port)
    ensures RefsOnce(stage, single) <==> StageOnce(env, stage)
  {
    if StageOnce(env, stage) {
      forall a, b | 0 <= a < b < |stage.inputFrom| && stage.inputFrom[a].output == stage.inputFrom[b].output
        ensures !single(Port(stage.stageId, stage.inputFrom[a].output))
      {
        assert OnceAt(env, stage, a, b);
      }
    }
  }

  lemma OnceStage(env: Env, stages: seq<Stage>, i: nat, plan: StagePlan, single: Port -> bool)
    requires i < |stages| && InputsExact(env, stages, i, plan.inputs) && EdgesExact(stages[i], plan.edges, plan.inputs)
    ensures Once(plan.edges, single) <==> RefsOnce(stages[i], single)
  {
    var refs, edges := stages[i].inputFrom, plan.edges;
    if Once(edges, single) {
      forall a, b | 0 <= a < b < |refs| && refs[a].output == refs[b].output
        ensures !single(Port(stages[i].stageId, refs[a].output))
      {
        assert edges[a].to == edges[b].to;
      }
    } else {
      var x, y :| 0 <= x < y < |edges| && edges[x].to == edges[y].to && single(edges[x].to);
      if y >= |refs| {
        TextEdgeAlone(env, stages, i, plan, x, y);
      }
    }
  }

  lemma TextTarget(env: Env, stages: seq<Stage>, i: nat, plan: StagePlan, y: nat)
    requires i < |stages| && InputsExact(env, stages, i, plan.inputs) && EdgesExact(stages[i], plan.edges, plan.inputs)
    requires |stages[i].inputFrom| <= y < |plan.edges|
    ensures plan.edges[y].to == Port(stages[i].stageId, plan.inputs[y - |stages[i].inputFrom|].port)
    ensures !LandsOn(stages[i], plan.edges[y].to.name)
  {
    var n := |stages[i].inputFrom|;
    assert plan.edges[n..][y - n] == plan.edges[y] && plan.inputs[y - n] in plan.inputs;
  }

  /** A text input's edge shares its port with no edge before it. */
  lemma TextEdgeAlone(env: Env, stages: seq<Stage>, i: nat, plan: StagePlan, x: nat, y: nat)
    requires i < |stages| && InputsExact(env, stages, i, plan.inputs) && EdgesExact(stages[i], plan.edges, plan.inputs)
    requires x < y < |plan.edges| && |stages[i].inputFrom| <= y
    ensures plan.edges[x].to != plan.edges[y].to
  {
    TextTarget(env, stages, i, plan, y);
    if x < |stages[i].inputFrom| {
      assert stages[i].inputFrom[x] in stages[i].inputFrom;
    } else {
      TextTarget(env, stages, i, plan, x);
    }
  }

  lemma SinglesOnceOnPlan(env: Env, p: IntentPlan, plans: seq<StagePlan>, reg: Registry)
    requires Compiled(env, p, plans) && Apart(p.stages, WholeDraft(p, plans)) && reg.definitions == env.definitions
    ensures SinglesOnce(reg, Assembled(env, p, plans)) <==> ReferencesOnce(env, p.stages)
  {
    var g := Assembled(env, p, plans);
    var single := SingleAt(reg, g);
    ApartKeepsNodes(p.stages, plans, |p.stages|);
    OnceMeansSingles(reg, g);
    PlansEndAtStages(env, p.stages, plans);
    OncePlans(p.stages, plans, |p.stages|, single);
    forall i | 0 <= i < |p.stages| ensures Once(plans[i].edges, single) <==> StageOnce(env, p.stages[i]) {
      StageOnceOnPlan(env, p, plans, reg, i);
    }
  }

  lemma StageOnceOnPlan(env: Env, p: IntentPlan, plans: seq<StagePlan>, reg: Registry, i: nat)
    requires Compiled(env, p, plans) && i < |p.stages| && reg.definitions == env.definitions
    requires StagesOwn(p.stages, plans, |p.stages|, WholeDraft(p, plans))
    ensures Once(plans[i].edges, SingleAt(reg, Assembled(env, p, plans))) <==> StageOnce(env, p.stages[i])
  {
    var stage, single := p.stages[i], SingleAt(reg, Assembled(env, p, plans));
    SingleAtStage(env, p, plans, reg, i);
    assert PlanSound(env, p.stages, i, plans[i]);
    PlanInputs(env, p.stages, i, plans[i]);
    OnceStage(env, p.stages, i, plans[i], single);
    RefsOnceMeaning(env, stage, single);
  }

  lemma SingleAtStage(env: Env, p: IntentPlan, plans: seq<StagePlan>, reg: Registry, i: nat)
    requires Compiled(env, p, plans) && i < |p.stages| && reg.definitions == env.definitions
    requires StagesOwn(p.stages, plans, |p.stages|, WholeDraft(p, plans))
    ensures forall port ::
      SingleAt(reg, Assembled(env, p, plans))(Port(p.stages[i].stageId, port)) <==> SingleOf(env, p.stages[i], port)
  {
    StageNodeType(env, p, plans, i);
  }

  lemma OnceMeansSingles(reg: Registry, g: WorkflowGraph)
    ensures Once(g.edges, SingleAt(reg, g)) <==> SinglesOnce(reg, g)
  {
  }

  // ----- inputs that share a name -----

  /** What stage `j` gives by the referenced name is taken by the first input of that name. */
  ghost predicate ReferenceTaken(env: Env, stages: seq<Stage>, i: nat, j: nat, name: string)
    requires i < |stages| && j < |stages|
  {
    && StageDefinition(env, stages[i]).Ok? && StageDefinition(env, stages[j]).Ok?
    && var sp := PortNamed(StageDefinition(env, stages[j]).value.outputs, name);
       sp.Some? && FirstTakes(StageDefinition(env, stages[i]).value.inputs, name, sp.value.portType)
  }

  /** Wiring picks an input by name and type, validation the first one by name: it takes what
      every reference brings, and text where a port is materialized. */
  ghost predicate FirstInputsTake(env: Env, stages: seq<Stage>) {
    && (forall i: nat, j: nat, r | i < |stages| && j < |stages| && r in stages[i].inputFrom
          && r.stageId == stages[j].stageId :: ReferenceTaken(env, stages, i, j, r.output))
    && (forall i: nat, port: string | i < |stages| && Materialized(env, stages[i], port) ::
          FirstTakes(StageDefinition(env, stages[i]).value.inputs, port, Text))
  }

  lemma ReferenceEdge(env: Env, p: IntentPlan, plans: seq<StagePlan>, reg: Registry, i: nat, x: nat, j: nat)
    requires Compiled(env, p, plans) && Apart(p.stages, WholeDraft(p, plans)) && TextInputsRegistered(env)
    requires reg.definitions == env.definitions && i < |p.stages| && j < |p.stages|
    requires x < |p.stages[i].inputFrom| && p.stages[i].inputFrom[x].stageId == p.stages[j].stageId
    requires x < |plans[i].edges|
    ensures plans[i].edges[x] in Assembled(env, p, plans).edges
    ensures EdgeValid(reg, Assembled(env, p, plans), plans[i].edges[x])
      <==> ReferenceTaken(env, p.stages, i, j, p.stages[i].inputFrom[x].output)
  {
    var e := plans[i].edges[x];
    assert PlanSound(env, p.stages, i, plans[i]);
    PartsInDraft(p.stages, plans, |p.stages|, i);
    ApartKeepsNodes(p.stages, plans, |p.stages|);
    StageNodeType(env, p, plans, i);
    StageNodeType(env, p, plans, j);
    AssembledPortsMatch(env, p, plans, e);
    MatchingIsValidExactly(env, reg, Assembled(env, p, plans), e);
  }

  lemma MaterializedEdge(env: Env, p: IntentPlan, plans: seq<StagePlan>, reg: Registry, i: nat, t: TextInput)
    requires Compiled(env, p, plans) && Apart(p.stages, WholeDraft(p, plans)) && TextInputsRegistered(env)
    requires reg.definitions == env.definitions && i < |p.stages|
    requires t in plans[i].inputs && SynthesizedFor(env, p.stages, i, t)
    ensures EdgeOf(t) in Assembled(env, p, plans).edges
    ensures EdgeValid(reg, Assembled(env, p, plans), EdgeOf(t))
      <==> FirstTakes(StageDefinition(env, p.stages[i]).value.inputs, t.port, Text)
  {
    assert PlanSound(env, p.stages, i, plans[i]);
    PartsInDraft(p.stages, plans, |p.stages|, i);
    ApartKeepsNodes(p.stages, plans, |p.stages|);
    StageNodeType(env, p, plans, i);
    assert t.id in SynthesizedIds(WholeDraft(p, plans).inputs);
    TextNodeType(env, p, plans, t.id);
    AssembledPortsMatch(env, p, plans, EdgeOf(t));
    MatchingIsValidExactly(env, reg, Assembled(env, p, plans), EdgeOf(t));
  }

  /** Every edge realizes a reference or brings a text. */
  lemma EdgeSource(env: Env, p: IntentPlan, plans: seq<StagePlan>, e: GraphEdge)
    returns (i: nat, x: nat, text: Option<TextInput>)
    requires Compiled(env, p, plans) && e in WholeDraft(p, plans).edges
    ensures i < |p.stages| && x < |plans[i].edges| && plans[i].edges[x] == e
    ensures text == None ==> x < |p.stages[i].inputFrom|
    ensures text.Some? ==>
      text.value in plans[i].inputs && SynthesizedFor(env, p.stages, i, text.value) && e == EdgeOf(text.value)
  {
    EdgeOrigin(p.stages, plans, |p.stages|, e);
    i :| 0 <= i < |p.stages| && e in plans[i].edges;
    PlanParts(env, p.stages, plans, i);
    x :| 0 <= x < |plans[i].edges| && plans[i].edges[x] == e;
    text := if x < |p.stages[i].inputFrom| then None else Some(TextAt(p.stages[i], plans[i].edges, plans[i].inputs, x));
  }

  lemma PlanParts(env: Env, stages: seq<Stage>, plans: seq<StagePlan>, i: nat)
    requires i < |plans| == |stages| && PlansSound(env, stages, plans)
    ensures EdgesExact(stages[i], plans[i].edges, plans[i].inputs) && InputsExact(env, stages, i, plans[i].inputs)
  {
    PlanInputs(env, stages, i, plans[i]);
  }

  function TextAt(stage: Stage, edges: seq<GraphEdge>, inputs: seq<TextInput>, x: nat): (t: TextInput)
    requires EdgesExact(stage, edges, inputs) && |stage.inputFrom| <= x < |edges|
    ensures t in inputs && edges[x] == EdgeOf(t)
  {
    assert edges[|stage.inputFrom|..][x - |stage.inputFrom|] == edges[x];
    inputs[x - |stage.inputFrom|]
  }

  lemma Referred(stages: seq<Stage>, i: nat, x: nat) returns (j: nat)
    requires StagesOrdered(stages) && i < |stages| && x < |stages[i].inputFrom|
    ensures j < |stages| && stages[i].inputFrom[x].stageId == stages[j].stageId
  {
    var r := stages[i].inputFrom[x];
    assert r in stages[i].inputFrom;
    j :| 0 <= j < i && stages[j].stageId == r.stageId;
  }

  lemma EdgesValidExactly(env: Env, p: IntentPlan, plans: seq<StagePlan>, reg: Registry)
    requires Compiled(env, p, plans) && Apart(p.stages, WholeDraft(p, plans)) && TextInputsRegistered(env)
    requires reg.definitions == env.definitions
    ensures var g := Assembled(env, p, plans);
      (forall e | e in g.edges :: EdgeValid(reg, g, e)) <==> FirstInputsTake(env, p.stages)
  {
    var g := Assembled(env, p, plans);
    if FirstInputsTake(env, p.stages) {
      forall e | e in g.edges ensures EdgeValid(reg, g, e) {
        var i, x, text := EdgeSource(env, p, plans, e);
        if text == None {
          var j := Referred(p.stages, i, x);
          ReferenceEdge(env, p, plans, reg, i, x, j);
        } else {
          MaterializedEdge(env, p, plans, reg, i, text.value);
        }
      }
    }
    if forall e | e in g.edges :: EdgeValid(reg, g, e) {
      ValidEdgesTake(env, p, plans, reg);
    }
  }

  lemma ValidEdgesTake(env: Env, p: IntentPlan, plans: seq<StagePlan>, reg: Registry)
    requires Compiled(env, p, plans) && Apart(p.stages, WholeDraft(p, plans)) && TextInputsRegistered(env)
    requires reg.definitions == env.definitions
    requires var g := Assembled(env, p, plans); forall e | e in g.edges :: EdgeValid(reg, g, e)
    ensures FirstInputsTake(env, p.stages)
  {
    var stages := p.stages;
    forall i: nat, j: nat, r | i < |stages| && j < |stages| && r in stages[i].inputFrom
        && r.stageId == stages[j].stageId
      ensures ReferenceTaken(env, stages, i, j, r.output)
    {
      var x :| 0 <= x < |stages[i].inputFrom| && stages[i].inputFrom[x] == r;
      assert PlanSound(env, stages, i, plans[i]);
      ReferenceEdge(env, p, plans, reg, i, x, j);
    }
    forall i: nat, port: string | i < |stages| && Materialized(env, stages[i], port)
      ensures FirstTakes(StageDefinition(env, stages[i]).value.inputs, port, Text)
    {
      MaterializedInDraft(env, stages, plans, i, port);
      var t :| t in plans[i].inputs && t.port == port && SynthesizedFor(env, stages, i, t)
        && t in WholeDraft(p, plans).inputs;
      MaterializedEdge(env, p, plans, reg, i, t);
    }
  }

  /** No definition names two inputs alike. */
  ghost predicate InputNamesDiffer(env: Env) {
    forall nodeType, a, b | nodeType in env.definitions
        && a in env.definitions[nodeType].inputs && b in env.definitions[nodeType].inputs && a.name == b.name :: a == b
  }

  /** Then the first input of a name is the one that was wired. */
  lemma DifferentNamesFit(env: Env, reg: Registry, g: WorkflowGraph, e: GraphEdge)
    requires reg.definitions == env.definitions && InputNamesDiffer(env)
    requires e.from.node in g.nodes && e.to.node in g.nodes && PortsMatch(env, g, e)
    ensures EdgeValid(reg, g, e)
  {
    MatchingIsValidExactly(env, reg, g, e);
    var inputs := env.definitions[g.nodes[e.to.node].nodeType].inputs;
    var tp :| tp in inputs && tp.name == e.to.name
      && PortNamed(env.definitions[g.nodes[e.from.node].nodeType].outputs, e.from.name).value.portType == tp.portType;
    PortIsNamed(inputs, tp);
    assert PortNamed(inputs, e.to.name).value == tp;
  }

  lemma DifferentNamesTake(env: Env, p: IntentPlan, plans: seq<StagePlan>, reg: Registry)
    requires Compiled(env, p, plans) && Apart(p.stages, WholeDraft(p, plans)) && TextInputsRegistered(env)
    requires reg.definitions == env.definitions && InputNamesDiffer(env)
    ensures FirstInputsTake(env, p.stages)
  {
    var g := Assembled(env, p, plans);
    forall e | e in g.edges ensures EdgeValid(reg, g, e) {
      AssembledPortsMatch(env, p, plans, e);
      DifferentNamesFit(env, reg, g, e);
    }
    ValidEdgesTake(env, p, plans, reg);
  }

  /** With no collision of ids, structural validation accepts an assembled graph exactly when
      its params fit their schemas, no stage has two references on one single input, and of
      inputs with one name the first takes what is wired: the schema, size, type,
      required-input, endpoint and cycle checks always pass. */
  lemma AssembledIsValidExactly(env: Env, p: IntentPlan, reg: Registry)
    requires ResolverSound(env) && StagesOrdered(p.stages) && NoCollision(env, p.stages) && TextInputsRegistered(env)
    requires Drafted(env, p.stages, |p.stages|).Ok? && reg.definitions == env.definitions
    ensures var g := Assemble(env, p, Drafted(env, p.stages, |p.stages|).value);
      GraphFault(reg, g) == None <==>
        ParamsFit(reg, g) && ReferencesOnce(env, p.stages) && FirstInputsTake(env, p.stages)
    ensures InputNamesDiffer(env) ==> FirstInputsTake(env, p.stages)
  {
    var plans := PlansOfDraft(env, p);
    NoCollisionIsApart(env, p.stages, plans);
    AssembledPartsValid(env, p, plans, reg);
    EdgesValidExactly(env, p, plans, reg);
    SinglesOnceOnPlan(env, p, plans, reg);
    AcceptsExactlyValid(reg, Assembled(env, p, plans));
    if InputNamesDiffer(env) {
      DifferentNamesTake(env, p, plans, reg);
    }
  }

  lemma AssembledPartsValid(env: Env, p: IntentPlan, plans: seq<StagePlan>, reg: Registry)
    requires Compiled(env, p, plans) && Apart(p.stages, WholeDraft(p, plans)) && TextInputsRegistered(env)
    requires reg.definitions == env.definitions
    ensures var g := Assembled(env, p, plans);
      && g.schemaVersion == 1 && Acyclic(g)
      && ((forall id | id in g.nodes :: NodeValid(reg, g, id)) <==> ParamsFit(reg, g))
  {
    var g := Assembled(env, p, plans);
    AssembledIsAcyclic(env, p, plans);
    forall id | id in g.nodes { AssembledNodesValid(env, p, plans, reg, id); }
  }
}
