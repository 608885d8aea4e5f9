/** Stages to graph (crates/compiler/src/graph_builder.rs, `build`). The capability resolver,
    the node registry and the final semantic validation are parameters. */
module GraphBuilder {
  import opened Json
  import opened Ordering
  import opened Graph
  import opened Intent
  import opened Layout

  datatype PortType = Text | Image | Video | Audio | Mask | Json

  function PortTypeLabel(t: PortType): string {
    match t
    case Text => "text"
    case Image => "image"
    case Video => "video"
    case Audio => "audio"
    case Mask => "mask"
    case Json => "json"
  }

  datatype PortDefinition = PortDefinition(name: string, portType: PortType, required: bool, many: bool)
  datatype NodeDefinition = NodeDefinition(
    title: string,
    inputs: seq<PortDefinition>,
    outputs: seq<PortDefinition>,
    requiredParams: seq<string>,
    paramProperties: set<string>)
  datatype Binding = Binding(mode: string, defaults: Value)
  datatype Resolved = Resolved(
    capabilityId: string,
    requestedModelId: Option<string>,
    resolvedModelId: string,
    bindingId: string,
    bindingRevision: string)
  datatype Resolution =
    | Found(resolved: Resolved)
    | BindingNotFound
    | Recoverable(code: string)
    | Unrecoverable(code: string)

  /** The catalog, the registry and the two services `build` calls. */
  datatype Env = Env(
    catalogRevision: string,
    nodeTypes: map<string, string>,
    bindings: map<string, Binding>,
    definitions: map<string, NodeDefinition>,
    resolve: (string, Option<string>) -> Resolution,
    semanticFault: WorkflowGraph -> Option<string>)

  /** What `CapabilityResolver::resolve` guarantees: it answers for the capability it was
      asked about, with a binding of the catalog. */
  ghost predicate ResolverSound(env: Env) {
    forall cap, model | env.resolve(cap, model).Found? ::
      && env.resolve(cap, model).resolved.capabilityId == cap
      && env.resolve(cap, model).resolved.bindingId in env.bindings
  }

  datatype BuildError =
    | Resolve(code: string)
    | UnmappedCapability(capabilityId: string)
    | PortTypeMismatch(stageId: string, fromStage: string, output: string)
    | GraphInvalid(code: string)

  datatype TextInput = TextInput(id: string, consumer: string, port: string, value: Value)
  datatype ResolvedStage = ResolvedStage(stageId: string, nodeId: string, resolved: Resolved)

  datatype Halt =
    | Clarify(reason: string, missing: seq<string>)
    | Fail(error: BuildError)

  // ----- wiring -----

  function PortNamed(ports: seq<PortDefinition>, name: string): (r: Option<PortDefinition>)
    ensures r.Some? ==> r.value in ports && r.value.name == name
  {
    if ports == [] then None
    else if ports[0].name == name then Some(ports[0])
    else PortNamed(ports[1..], name)
  }

  function InputNamed(ports: seq<PortDefinition>, name: string, portType: PortType): (r: Option<PortDefinition>)
    ensures r.Some? ==> r.value in ports && r.value.name == name && r.value.portType == portType
  {
    if ports == [] then None
    else if ports[0].name == name && ports[0].portType == portType then Some(ports[0])
    else InputNamed(ports[1..], name, portType)
  }

  function FirstWith(stages: seq<Stage>, id: string): (r: Option<Stage>)
    ensures r.Some? ==> r.value in stages && r.value.stageId == id
    ensures r.None? ==> forall s | s in stages :: s.stageId != id
  {
    if stages == [] then None
    else if stages[0].stageId == id then Some(stages[0])
    else FirstWith(stages[1..], id)
  }

  /** The definition behind a stage: its capability's node type in the registry. */
  function StageDefinition(env: Env, stage: Stage): Result<NodeDefinition, BuildError> {
    if stage.capabilityId !in env.nodeTypes then Err(UnmappedCapability(stage.capabilityId))
    else if env.nodeTypes[stage.capabilityId] !in env.definitions then Err(GraphInvalid("CAPABILITY_NOT_FOUND"))
    else Ok(env.definitions[env.nodeTypes[stage.capabilityId]])
  }

  function WireOne(env: Env, stages: seq<Stage>, stage: Stage, definition: NodeDefinition, input: StageInputRef)
    : Result<GraphEdge, BuildError>
    requires FirstWith(stages, input.stageId).Some?
  {
    var source := FirstWith(stages, input.stageId).value;
    match StageDefinition(env, source)
    case Err(e) => Err(e)
    case Ok(sourceDefinition) =>
      var sourcePort := PortNamed(sourceDefinition.outputs, input.output);
      if sourcePort.None? then Err(PortTypeMismatch(stage.stageId, input.stageId, input.output)) else
        var targetPort := InputNamed(definition.inputs, input.output, sourcePort.value.portType);
        if targetPort.None? then Err(PortTypeMismatch(stage.stageId, input.stageId, input.output)) else
          Ok(GraphEdge(
            Port(input.stageId, sourcePort.value.name),
            Port(stage.stageId, targetPort.value.name),
            PortTypeLabel(sourcePort.value.portType)))
  }

  ghost predicate InputsKnown(stages: seq<Stage>, inputs: seq<StageInputRef>) {
    forall r | r in inputs :: FirstWith(stages, r.stageId).Some?
  }

  function WireAll(env: Env, stages: seq<Stage>, stage: Stage, definition: NodeDefinition, inputs: seq<StageInputRef>)
    : Result<seq<GraphEdge>, BuildError>
    requires InputsKnown(stages, inputs)
  {
    if inputs == [] then Ok([]) else
      assert inputs[0] in inputs;
      match WireOne(env, stages, stage, definition, inputs[0])
      case Err(e) => Err(e)
      case Ok(edge) =>
        match WireAll(env, stages, stage, definition, inputs[1..])
        case Err(e) => Err(e)
        case Ok(rest) => Ok([edge] + rest)
  }

  // ----- synthesized text inputs -----

  function InputId(stageId: string, port: string): string { stageId + "-" + port + "-input" }

  /** A stage under construction: its params, its incoming edges, its text inputs. */
  datatype Parts = Parts(params: map<string, Value>, edges: seq<GraphEdge>, inputs: seq<TextInput>)

  function Wired(edges: seq<GraphEdge>, stageId: string, port: string): bool {
    exists e | e in edges :: e.to == Port(stageId, port)
  }

  function Materialize(stageId: string, properties: set<string>, port: PortDefinition, parts: Parts): Parts {
    if !port.required || port.portType != Text then parts
    else if Wired(parts.edges, stageId, port.name) || port.name in properties then parts
    else if port.name !in parts.params then parts
    else
      var id := InputId(stageId, port.name);
      Parts(
        parts.params - {port.name},
        parts.edges + [GraphEdge(Port(id, "text"), Port(stageId, port.name), "text")],
        parts.inputs + [TextInput(id, stageId, port.name, parts.params[port.name])])
  }

  function MaterializeAll(stageId: string, properties: set<string>, ports: seq<PortDefinition>, parts: Parts): Parts {
    if ports == [] then parts
    else MaterializeAll(stageId, properties, ports[1..], Materialize(stageId, properties, ports[0], parts))
  }

  // ----- required inputs and params -----

  function NonNull(params: map<string, Value>, key: string): bool {
    key in params && params[key] != Null
  }

  function MissingInputs(stageId: string, ports: seq<PortDefinition>, parts: Parts): seq<string> {
    if ports == [] then []
    else if ports[0].required && !Wired(parts.edges, stageId, ports[0].name) && !NonNull(parts.params, ports[0].name)
    then [stageId + "." + ports[0].name] + MissingInputs(stageId, ports[1..], parts)
    else MissingInputs(stageId, ports[1..], parts)
  }

  /** Required params: a wired one is filled with a placeholder, another one is missing. */
  function FillParams(stageId: string, required: seq<string>, edges: seq<GraphEdge>, params: map<string, Value>)
    : map<string, Value>
  {
    if required == [] then params
    else if required[0] in params || !Wired(edges, stageId, required[0])
    then FillParams(stageId, required[1..], edges, params)
    else FillParams(stageId, required[1..], edges, params[required[0] := Str("")])
  }

  function MissingParams(stageId: string, required: seq<string>, edges: seq<GraphEdge>, params: map<string, Value>)
    : seq<string>
  {
    if required == [] then []
    else if required[0] in params then MissingParams(stageId, required[1..], edges, params)
    else if Wired(edges, stageId, required[0])
    then MissingParams(stageId, required[1..], edges, params[required[0] := Str("")])
    else [stageId + "." + required[0]] + MissingParams(stageId, required[1..], edges, params)
  }

  // ----- one stage -----

  datatype StagePlan = StagePlan(node: GraphNode, edges: seq<GraphEdge>, inputs: seq<TextInput>, resolved: Resolved)

  function Fields(v: Value): map<string, Value> { if v.Obj? then v.fields else map[] }

  function StageSemantics(stage: Stage, resolved: Resolved, binding: Binding): Semantics {
    Semantics(
      resolved.capabilityId,
      binding.mode,
      if stage.requestedModel.Some? then Pinned(resolved.resolvedModelId, resolved.bindingId)
      else Policy("capability_default", Obj(map[])))
  }

  function Halted(resolution: Resolution, stage: Stage): Halt
    requires !resolution.Found?
  {
    match resolution
    case BindingNotFound => Clarify("BINDING_NOT_FOUND", [stage.stageId + ".model"])
    case Recoverable(code) => Clarify(code, [stage.stageId + ".model"])
    case Unrecoverable(code) => Fail(Resolve(code))
  }

  function FinishStage(
    env: Env, stage: Stage, definition: NodeDefinition, resolved: Resolved, index: nat, wired: seq<GraphEdge>)
    : Result<StagePlan, Halt>
    requires resolved.bindingId in env.bindings && resolved.capabilityId in env.nodeTypes
  {
    var id := stage.stageId;
    var binding := env.bindings[resolved.bindingId];
    var parts := MaterializeAll(id, definition.paramProperties, definition.inputs,
                                Parts(Fields(binding.defaults) + Fields(stage.params), wired, []));
    var missing := MissingInputs(id, definition.inputs, parts)
                 + MissingParams(id, definition.requiredParams, parts.edges, parts.params);
    if missing != [] then Err(Clarify("REQUIRED_INPUT_MISSING", Dedup(Sort(missing, StrLeq))))
    else
      var params := FillParams(id, definition.requiredParams, parts.edges, parts.params);
      Ok(StagePlan(
        GraphNode(env.nodeTypes[resolved.capabilityId], definition.title, Obj(params),
                  Point(index * COLUMN_WIDTH, 0), None, Some(StageSemantics(stage, resolved, binding))),
        parts.edges, parts.inputs, resolved))
  }

  function BuildStage(env: Env, stages: seq<Stage>, i: nat): Result<StagePlan, Halt>
    requires ResolverSound(env) && i < |stages| && InputsKnown(stages, stages[i].inputFrom)
  {
    var stage := stages[i];
    var resolution := env.resolve(stage.capabilityId, stage.requestedModel);
    if !resolution.Found? then Err(Halted(resolution, stage)) else
      match StageDefinition(env, stage)
      case Err(e) => Err(Fail(e))
      case Ok(definition) =>
        match WireAll(env, stages, stage, definition, stage.inputFrom)
        case Err(e) => Err(Fail(e))
        case Ok(wired) => FinishStage(env, stage, definition, resolution.resolved, i, wired)
  }

  // ----- all stages -----

  function TextNode(value: Value): GraphNode {
    GraphNode("input.text", "Text Input", Obj(map["text" := value]), Point(0, 0), None, None)
  }

  function AddInputs(nodes: map<string, GraphNode>, inputs: seq<TextInput>): map<string, GraphNode>
    decreases |inputs|
  {
    if inputs == [] then nodes else AddInputs(nodes[inputs[0].id := TextNode(inputs[0].value)], inputs[1..])
  }

  datatype Draft = Draft(
    nodes: map<string, GraphNode>, edges: seq<GraphEdge>, inputs: seq<TextInput>, resolved: seq<ResolvedStage>)

  function AddStage(draft: Draft, id: string, plan: StagePlan): Draft {
    Draft(
      AddInputs(draft.nodes, plan.inputs)[id := plan.node],
      draft.edges + plan.edges,
      draft.inputs + plan.inputs,
      draft.resolved + [ResolvedStage(id, id, plan.resolved)])
  }

  function Drafted(env: Env, stages: seq<Stage>, n: nat): Result<Draft, Halt>
    requires ResolverSound(env) && StagesOrdered(stages) && n <= |stages|
  {
    if n == 0 then Ok(Draft(map[], [], [], [])) else
      match Drafted(env, stages, n - 1)
      case Err(h) => Err(h)
      case Ok(draft) =>
        InputsAreKnown(stages, n - 1);
        match BuildStage(env, stages, n - 1)
        case Err(h) => Err(h)
        case Ok(plan) => Ok(AddStage(draft, stages[n - 1].stageId, plan))
  }

  lemma InputsAreKnown(stages: seq<Stage>, i: nat)
    requires StagesOrdered(stages) && i < |stages|
    ensures InputsKnown(stages, stages[i].inputFrom)
  {
    forall r | r in stages[i].inputFrom ensures FirstWith(stages, r.stageId).Some? {
      var j :| 0 <= j < i && stages[j].stageId == r.stageId;
      assert stages[j] in stages;
    }
  }

  // ----- the finished graph -----

  /** One column left of a node. */
  function LeftOf(nodes: map<string, GraphNode>, id: string): Point {
    var pos := if id in nodes then nodes[id].pos else Point(0, 0);
    Point(pos.x - COLUMN_WIDTH, pos.y)
  }

  function PlaceInputs(nodes: map<string, GraphNode>, inputs: seq<TextInput>): map<string, GraphNode>
    decreases |inputs|
  {
    if inputs == [] then nodes else
      PlaceInputs(Moved(nodes, inputs[0].id, LeftOf(nodes, inputs[0].consumer)), inputs[1..])
  }

  /** The hints pushed while the text inputs are placed. */
  function TextHints(nodes: map<string, GraphNode>, inputs: seq<TextInput>): (hints: seq<LayoutHint>)
    ensures |hints| == |inputs|
    decreases |inputs|
  {
    if inputs == [] then [] else
      var pos := LeftOf(nodes, inputs[0].consumer);
      [LayoutHint(inputs[0].id, pos)] + TextHints(Moved(nodes, inputs[0].id, pos), inputs[1..])
  }

  function Assemble(env: Env, p: IntentPlan, draft: Draft): WorkflowGraph {
    WorkflowGraph(1, Some(env.catalogRevision),
                  PlaceInputs(LaidOut(p, draft.nodes, |p.stages|), draft.inputs), draft.edges)
  }

  // ----- the loops -----

  function After(edges: seq<GraphEdge>, r: Result<seq<GraphEdge>, BuildError>): Result<seq<GraphEdge>, BuildError> {
    match r
    case Err(e) => Err(e)
    case Ok(rest) => Ok(edges + rest)
  }

  lemma AfterNothing(edges: seq<GraphEdge>, r: Result<seq<GraphEdge>, BuildError>)
    ensures After([], r) == r
    ensures After(edges, Ok([])) == Ok(edges)
  {
    if r.Ok? { assert [] + r.value == r.value; }
    assert edges + [] == edges;
  }

  lemma AfterOne(edges: seq<GraphEdge>, edge: GraphEdge, r: Result<seq<GraphEdge>, BuildError>)
    ensures After(edges, After([edge], r)) == After(edges + [edge], r)
  {
    if r.Ok? { assert edges + ([edge] + r.value) == edges + [edge] + r.value; }
  }

  method WireInputs(env: Env, stages: seq<Stage>, stage: Stage, definition: NodeDefinition)
    returns (r: Result<seq<GraphEdge>, BuildError>)
    requires InputsKnown(stages, stage.inputFrom)
    ensures r == WireAll(env, stages, stage, definition, stage.inputFrom)
  {
    var inputs := stage.inputFrom;
    var edges: seq<GraphEdge> := [];
    assert inputs[0..] == inputs;
    AfterNothing(edges, WireAll(env, stages, stage, definition, inputs));
    for k := 0 to |inputs|
      invariant WireAll(env, stages, stage, definition, inputs)
             == After(edges, WireAll(env, stages, stage, definition, inputs[k..]))
    {
      assert inputs[k] in inputs;
      assert inputs[k..][1..] == inputs[k + 1..];
      var wired := WireOne(env, stages, stage, definition, inputs[k]);
      if wired.Err? {
        return Err(wired.error);
      }
      AfterOne(edges, wired.value, WireAll(env, stages, stage, definition, inputs[k + 1..]));
      edges := edges + [wired.value];
    }
    AfterNothing(edges, Ok([]));
    return Ok(edges);
  }

  method MaterializeInputs(stageId: string, definition: NodeDefinition, start: Parts) returns (parts: Parts)
    ensures parts == MaterializeAll(stageId, definition.paramProperties, definition.inputs, start)
  {
    var ports := definition.inputs;
    parts := start;
    for k := 0 to |ports|
      invariant MaterializeAll(stageId, definition.paramProperties, ports, start)
             == MaterializeAll(stageId, definition.paramProperties, ports[k..], parts)
    {
      assert ports[k..][1..] == ports[k + 1..];
      var port := ports[k];
      if port.required && port.portType == Text {
        if !Wired(parts.edges, stageId, port.name) && port.name !in definition.paramProperties {
          if port.name in parts.params {
            var id := InputId(stageId, port.name);
            parts := Parts(
              parts.params - {port.name},
              parts.edges + [GraphEdge(Port(id, "text"), Port(stageId, port.name), "text")],
              parts.inputs + [TextInput(id, stageId, port.name, parts.params[port.name])]);
          }
        }
      }
    }
  }

  method CheckRequired(stageId: string, definition: NodeDefinition, parts: Parts)
    returns (params: map<string, Value>, missing: seq<string>)
    ensures params == FillParams(stageId, definition.requiredParams, parts.edges, parts.params)
    ensures missing == MissingInputs(stageId, definition.inputs, parts)
                     + MissingParams(stageId, definition.requiredParams, parts.edges, parts.params)
  {
    var ports, required := definition.inputs, definition.requiredParams;
    params, missing := parts.params, [];
    for k := 0 to |ports|
      invariant missing + MissingInputs(stageId, ports[k..], parts) == MissingInputs(stageId, ports, parts)
    {
      assert ports[k..][1..] == ports[k + 1..];
      if ports[k].required && !Wired(parts.edges, stageId, ports[k].name) && !NonNull(parts.params, ports[k].name) {
        missing := missing + [stageId + "." + ports[k].name];
      }
    }
    assert missing == MissingInputs(stageId, ports, parts);
    ghost var before := missing;
    for k := 0 to |required|
      invariant FillParams(stageId, required[k..], parts.edges, params)
             == FillParams(stageId, required, parts.edges, parts.params)
      invariant missing + MissingParams(stageId, required[k..], parts.edges, params)
             == before + MissingParams(stageId, required, parts.edges, parts.params)
    {
      assert required[k..][1..] == required[k + 1..];
      if required[k] !in params {
        if Wired(parts.edges, stageId, required[k]) {
          params := params[required[k] := Str("")];
        } else {
          missing := missing + [stageId + "." + required[k]];
        }
      }
    }
  }

  method CompileStage(env: Env, stages: seq<Stage>, i: nat) returns (r: Result<StagePlan, Halt>)
    requires ResolverSound(env) && i < |stages| && InputsKnown(stages, stages[i].inputFrom)
    ensures r == BuildStage(env, stages, i)
  {
    var stage := stages[i];
    var resolution := env.resolve(stage.capabilityId, stage.requestedModel);
    if !resolution.Found? {
      return Err(Halted(resolution, stage));
    }
    var resolved := resolution.resolved;
    var definition := StageDefinition(env, stage);
    if definition.Err? {
      return Err(Fail(definition.error));
    }
    var wired := WireInputs(env, stages, stage, definition.value);
    if wired.Err? {
      return Err(Fail(wired.error));
    }
    var binding := env.bindings[resolved.bindingId];
    var parts := MaterializeInputs(stage.stageId, definition.value,
                                   Parts(Fields(binding.defaults) + Fields(stage.params), wired.value, []));
    var params, missing := CheckRequired(stage.stageId, definition.value, parts);
    if missing != [] {
      return Err(Clarify("REQUIRED_INPUT_MISSING", Dedup(Sort(missing, StrLeq))));
    }
    var node := GraphNode(env.nodeTypes[resolved.capabilityId], definition.value.title, Obj(params),
                          Point(i * COLUMN_WIDTH, 0), None, Some(StageSemantics(stage, resolved, binding)));
    return Ok(StagePlan(node, parts.edges, parts.inputs, resolved));
  }

  datatype Built = Built(target: WorkflowGraph, resolvedStages: seq<ResolvedStage>, hints: seq<LayoutHint>)

  method PlaceTextInputs(start: map<string, GraphNode>, inputs: seq<TextInput>)
    returns (nodes: map<string, GraphNode>, hints: seq<LayoutHint>)
    ensures nodes == PlaceInputs(start, inputs)
    ensures hints == TextHints(start, inputs)
  {
    nodes, hints := start, [];
    for k := 0 to |inputs|
      invariant PlaceInputs(nodes, inputs[k..]) == PlaceInputs(start, inputs)
      invariant hints + TextHints(nodes, inputs[k..]) == TextHints(start, inputs)
    {
      assert inputs[k..][1..] == inputs[k + 1..];
      var consumer := if inputs[k].consumer in nodes then nodes[inputs[k].consumer].pos else Point(0, 0);
      var pos := Point(consumer.x - COLUMN_WIDTH, consumer.y);
      ghost var rest := TextHints(Moved(nodes, inputs[k].id, pos), inputs[k + 1..]);
      assert hints + ([LayoutHint(inputs[k].id, pos)] + rest) == hints + [LayoutHint(inputs[k].id, pos)] + rest;
      nodes := Moved(nodes, inputs[k].id, pos);
      hints := hints + [LayoutHint(inputs[k].id, pos)];
    }
  }

  function StageHints(p: IntentPlan): seq<LayoutHint> {
    seq(|p.stages|, i requires 0 <= i < |p.stages| => LayoutHint(p.stages[i].stageId, StagePos(p, i)))
  }

  /** A hint for every stage, then one for every text input. */
  function AllHints(p: IntentPlan, draft: Draft): seq<LayoutHint> {
    StageHints(p) + TextHints(LaidOut(p, draft.nodes, |p.stages|), draft.inputs)
  }

  /** The semantic fault of the assembled target, or that target with a hint for every stage
      and every text input. */
  ghost predicate FinishesTo(env: Env, p: IntentPlan, draft: Draft, r: Result<Built, Halt>) {
    var target := Assemble(env, p, draft);
    match env.semanticFault(target)
    case Some(code) => r == Err(Fail(GraphInvalid(code)))
    case None =>
      && r.Ok? && r.value.target == target && r.value.resolvedStages == draft.resolved
      && r.value.hints == AllHints(p, draft)
  }

  method Finish(env: Env, p: IntentPlan, draft: Draft) returns (r: Result<Built, Halt>)
    ensures FinishesTo(env, p, draft, r)
  {
    var nodes, hints := ApplyLayout(p, draft.nodes);
    var inputHints: seq<LayoutHint>;
    nodes, inputHints := PlaceTextInputs(nodes, draft.inputs);
    var target := WorkflowGraph(1, Some(env.catalogRevision), nodes, draft.edges);
    var fault := env.semanticFault(target);
    if fault.Some? {
      return Err(Fail(GraphInvalid(fault.value)));
    }
    assert hints == StageHints(p);
    return Ok(Built(target, draft.resolved, hints + inputHints));
  }

  /** The halt of the first halting stage, or what finishing the whole draft gives. */
  ghost predicate BuildsTo(env: Env, p: IntentPlan, r: Result<Built, Halt>)
    requires ResolverSound(env) && StagesOrdered(p.stages)
  {
    match Drafted(env, p.stages, |p.stages|)
    case Err(h) => r == Err(h)
    case Ok(draft) => FinishesTo(env, p, draft, r)
  }

  method Build(env: Env, p: IntentPlan) returns (r: Result<Built, Halt>)
    requires ResolverSound(env) && StagesOrdered(p.stages)
    ensures BuildsTo(env, p, r)
  {
    var draft := Draft(map[], [], [], []);
    for i := 0 to |p.stages|
      invariant Drafted(env, p.stages, i) == Ok(draft)
    {
      InputsAreKnown(p.stages, i);
      var plan := CompileStage(env, p.stages, i);
      if plan.Err? {
        HaltsStay(env, p.stages, i + 1, |p.stages|);
        return Err(plan.error);
      }
      draft := AddStage(draft, p.stages[i].stageId, plan.value);
    }
    r := Finish(env, p, draft);
  }

  lemma {:induction false} HaltsStay(env: Env, stages: seq<Stage>, n: nat, m: nat)
    requires ResolverSound(env) && StagesOrdered(stages) && n <= m <= |stages| && Drafted(env, stages, n).Err?
    ensures Drafted(env, stages, m) == Err(Drafted(env, stages, n).error)
    decreases m
  {
    if n < m { HaltsStay(env, stages, n, m - 1); }
  }
}
