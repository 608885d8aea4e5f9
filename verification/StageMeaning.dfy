/** What a compiled stage carries and why a stage halts the build
    (crates/compiler/src/graph_builder.rs:46-283), read off the plan. */
module StageMeaning {
  import opened Json
  import opened Ordering
  import opened Graph
  import opened Intent
  import opened Layout
  import opened GraphBuilder
  import opened StagePlans
  import opened BuiltGraph
  import opened Collisions
  import opened Compiler

  // ----- what a stage's node carries -----

  /** The value given for a param: by the stage, or else by its binding. */
  function Given(stage: Stage, defaults: Value, k: string): Option<Value> {
    if stage.params.Obj? && k in stage.params.fields then Some(stage.params.fields[k])
    else if defaults.Obj? && k in defaults.fields then Some(defaults.fields[k])
    else None
  }

  /** A reference or a text input of its own feeds the port. */
  predicate IsFed(env: Env, stage: Stage, port: string) { LandsOn(stage, port) || Materialized(env, stage, port) }

  /** The stage's capability in the mode of its binding; the resolved model is pinned exactly
      if the stage asked for one. */
  predicate SemanticsRight(env: Env, stage: Stage, resolved: Resolved, m: Semantics) {
    && m.capabilityId == stage.capabilityId
    && resolved.bindingId in env.bindings && m.mode == env.bindings[resolved.bindingId].mode
    && (m.implementation.Pinned? <==> stage.requestedModel.Some?)
    && (m.implementation.Pinned? ==>
          && m.implementation.requestedModelId == resolved.resolvedModelId
          && m.implementation.bindingId == resolved.bindingId)
    && (m.implementation.Policy? ==>
          m.implementation.policyId == "capability_default" && m.implementation.constraints == Obj(map[]))
  }

  /** Given values that did not become text inputs, and empty texts for required params whose
      value arrives over an edge. */
  ghost predicate ParamsRight(
    env: Env, stage: Stage, defaults: Value, required: seq<string>, fields: map<string, Value>) {
    && (forall k | Given(stage, defaults, k).Some? && !Materialized(env, stage, k) ::
          k in fields && fields[k] == Given(stage, defaults, k).value)
    && (forall k | k in fields && (Given(stage, defaults, k).None? || Materialized(env, stage, k)) ::
          k in required && IsFed(env, stage, k) && fields[k] == Str(""))
  }

  ghost predicate NodeRight(env: Env, stage: Stage, resolved: Resolved, node: GraphNode) {
    && env.resolve(stage.capabilityId, stage.requestedModel) == Found(resolved)
    && stage.capabilityId in env.nodeTypes && env.nodeTypes[stage.capabilityId] in env.definitions
    && var definition := env.definitions[env.nodeTypes[stage.capabilityId]];
    && node.nodeType == env.nodeTypes[stage.capabilityId] && node.title == definition.title
    && node.semantics.Some? && SemanticsRight(env, stage, resolved, node.semantics.value)
    && node.params.Obj? && resolved.bindingId in env.bindings
    && ParamsRight(env, stage, env.bindings[resolved.bindingId].defaults, definition.requiredParams, node.params.fields)
  }

  /** A filled required param that was not there before is fed and empty. */
  lemma {:induction false} FilledExactly(
    id: string, required: seq<string>, edges: seq<GraphEdge>, params: map<string, Value>, k: string)
    ensures var filled := FillParams(id, required, edges, params);
      && (k in params ==> k in filled && filled[k] == params[k])
      && (k in filled && k !in params ==> k in required && Wired(edges, id, k) && filled[k] == Str(""))
    decreases |required|
  {
    if required != [] {
      var next := if required[0] in params || !Wired(edges, id, required[0]) then params
        else params[required[0] := Str("")];
      FilledExactly(id, required[1..], edges, next, k);
    }
  }

  /** Params and edges of a stage after its text inputs are made. */
  lemma PartsOfStage(
    env: Env, stages: seq<Stage>, i: nat, definition: NodeDefinition, wired: seq<GraphEdge>, k: string)
    requires i < |stages| && InputsKnown(stages, stages[i].inputFrom)
      && StageDefinition(env, stages[i]) == Ok(definition)
    requires WireAll(env, stages, stages[i], definition, stages[i].inputFrom) == Ok(wired)
    ensures var s := SiteOf(env, stages, i, definition, wired);
      var parts := MaterializeAll(s.stageId, s.properties, s.ports, s.start);
      && (k in parts.params <==> k in Literals(env, stages[i]) && !Materialized(env, stages[i], k))
      && (k in parts.params ==> parts.params[k] == Literals(env, stages[i])[k])
      && (Wired(parts.edges, stages[i].stageId, k) <==> IsFed(env, stages[i], k))
  {
    var s := SiteOf(env, stages, i, definition, wired);
    var parts := MaterializeAll(s.stageId, s.properties, s.ports, s.start);
    SiteComplete(s);
    SiteIsExact(env, stages, i, definition, wired);
    WireAllPorts(env, stages, stages[i], definition, stages[i].inputFrom, k);
    WiredNow(s, parts, k);
    assert Serves(parts.inputs, k) <==> Materialized(env, stages[i], k);
  }

  lemma LiteralsAreGiven(env: Env, stage: Stage, resolved: Resolved, k: string)
    requires env.resolve(stage.capabilityId, stage.requestedModel) == Found(resolved)
    requires resolved.bindingId in env.bindings
    ensures var given := Given(stage, env.bindings[resolved.bindingId].defaults, k);
      && (k in Literals(env, stage) <==> given.Some?)
      && (given.Some? ==> Literals(env, stage)[k] == given.value)
  {
  }

  lemma ParamsAreRight(
    env: Env, stages: seq<Stage>, i: nat, resolved: Resolved, definition: NodeDefinition, wired: seq<GraphEdge>)
    requires i < |stages| && InputsKnown(stages, stages[i].inputFrom)
      && StageDefinition(env, stages[i]) == Ok(definition)
    requires WireAll(env, stages, stages[i], definition, stages[i].inputFrom) == Ok(wired)
    requires env.resolve(stages[i].capabilityId, stages[i].requestedModel) == Found(resolved)
    requires resolved.bindingId in env.bindings
    ensures var s := SiteOf(env, stages, i, definition, wired);
      var parts := MaterializeAll(s.stageId, s.properties, s.ports, s.start);
      var fields := FillParams(s.stageId, definition.requiredParams, parts.edges, parts.params);
      ParamsRight(env, stages[i], env.bindings[resolved.bindingId].defaults, definition.requiredParams, fields)
  {
    var s := SiteOf(env, stages, i, definition, wired);
    var parts := MaterializeAll(s.stageId, s.properties, s.ports, s.start);
    forall k
      ensures k in parts.params <==> k in Literals(env, stages[i]) && !Materialized(env, stages[i], k)
      ensures k in parts.params ==> parts.params[k] == Literals(env, stages[i])[k]
      ensures Wired(parts.edges, stages[i].stageId, k) <==> IsFed(env, stages[i], k)
    {
      PartsOfStage(env, stages, i, definition, wired, k);
    }
    forall k { LiteralsAreGiven(env, stages[i], resolved, k); }
    forall k { FilledExactly(s.stageId, definition.requiredParams, parts.edges, parts.params, k); }
  }

  /** The node of a compiled stage: type, title, semantics and params. */
  lemma BuiltStageIsRight(env: Env, stages: seq<Stage>, i: nat)
    requires ResolverSound(env) && i < |stages| && InputsKnown(stages, stages[i].inputFrom)
    requires BuildStage(env, stages, i).Ok?
    ensures var plan := BuildStage(env, stages, i).value; NodeRight(env, stages[i], plan.resolved, plan.node)
  {
    var stage := stages[i];
    var definition := StageDefinition(env, stage).value;
    var wired := WireAll(env, stages, stage, definition, stage.inputFrom).value;
    var resolved := env.resolve(stage.capabilityId, stage.requestedModel).resolved;
    ParamsAreRight(env, stages, i, resolved, definition, wired);
  }

  // ----- the assembled graph -----

  lemma {:induction false} ResolvedInOrder(stages: seq<Stage>, plans: seq<StagePlan>, n: nat)
    requires n <= |stages| && n <= |plans|
    ensures var resolved := DraftOf(stages, plans, n).resolved;
      |resolved| == n && forall i | 0 <= i < n ::
        resolved[i] == ResolvedStage(stages[i].stageId, stages[i].stageId, plans[i].resolved)
  {
    if n > 0 { ResolvedInOrder(stages, plans, n - 1); }
  }

  /** Every stage has its node at its own id, and its resolution at its own place. */
  ghost predicate StagesRight(env: Env, stages: seq<Stage>, g: WorkflowGraph, resolved: seq<ResolvedStage>) {
    |resolved| == |stages| && forall i | 0 <= i < |stages| :: StageRight(env, stages[i], g, resolved[i])
  }

  ghost predicate StageRight(env: Env, stage: Stage, g: WorkflowGraph, resolved: ResolvedStage) {
    && resolved.stageId == resolved.nodeId == stage.stageId && stage.stageId in g.nodes
    && NodeRight(env, stage, resolved.resolved, g.nodes[stage.stageId])
  }

  lemma AssembledStagesAreRight(env: Env, p: IntentPlan)
    requires ResolverSound(env) && StagesOrdered(p.stages) && Drafted(env, p.stages, |p.stages|).Ok?
    requires OnlyLaterTaken(env, p.stages)
    ensures var draft := Drafted(env, p.stages, |p.stages|).value;
      StagesRight(env, p.stages, Assemble(env, p, draft), draft.resolved)
  {
    var plans := PlansOfDraft(env, p);
    ResolvedInOrder(p.stages, plans, |p.stages|);
    var g, resolved := Assembled(env, p, plans), WholeDraft(p, plans).resolved;
    forall i | 0 <= i < |p.stages| ensures StageRight(env, p.stages[i], g, resolved[i]) {
      StageInTarget(env, p, plans, i);
    }
  }

  /** Every stage of a compiled plan has, at its own id, the node it asked for, and the outcome
      lists the resolutions in the order of the stages. */
  lemma CompiledStagesAreRight(env: Env, p: IntentPlan, current: WorkflowGraph, r: CompileOutcome)
    requires ResolverSound(env) && Accepted(p) && CompilesTo(env, p, current, r) && r.Compiled?
    requires OnlyLaterTaken(env, p.stages)
    ensures r.target.schemaVersion == 1 && r.target.catalogRevision == Some(env.catalogRevision)
    ensures StagesRight(env, p.stages, r.target, r.resolvedStages)
  {
    AssembledStagesAreRight(env, p);
  }

  lemma StageInTarget(env: Env, p: IntentPlan, plans: seq<StagePlan>, i: nat)
    requires BuiltGraph.Compiled(env, p, plans) && AllBuilt(env, p.stages, plans) && OnlyLaterTaken(env, p.stages)
    requires i < |p.stages|
    ensures var g := Assembled(env, p, plans);
      && p.stages[i].stageId in g.nodes
      && NodeRight(env, p.stages[i], plans[i].resolved, g.nodes[p.stages[i].stageId])
  {
    LaterMeansAvoiding(env, p, plans);
    LaterKeepStages(p.stages, plans, |p.stages|);
    StageNodeType(env, p, plans, i);
    assert IsBuilt(env, p.stages, i, plans[i]);
    BuiltStageIsRight(env, p.stages, i);
  }

  /** A materialized port has a text input with its given value, and an edge from it. */
  ghost predicate TextRight(env: Env, stage: Stage, port: string, g: WorkflowGraph) {
    var id, resolution := stage.stageId + "-" + port + "-input", env.resolve(stage.capabilityId, stage.requestedModel);
    && id in g.nodes && GraphEdge(Port(id, "text"), Port(stage.stageId, port), "text") in g.edges
    && g.nodes[id].nodeType == "input.text" && g.nodes[id].title == "Text Input"
    && g.nodes[id].size == None && g.nodes[id].semantics == None
    && resolution.Found? && resolution.resolved.bindingId in env.bindings
    && var given := Given(stage, env.bindings[resolution.resolved.bindingId].defaults, port);
       given.Some? && g.nodes[id].params == Obj(map["text" := given.value])
  }

  lemma InputIsGiven(env: Env, stages: seq<Stage>, i: nat, t: TextInput)
    requires SynthesizedFor(env, stages, i, t)
    ensures var stage := stages[i];
      var resolution := env.resolve(stage.capabilityId, stage.requestedModel);
      && t.id == stage.stageId + "-" + t.port + "-input" && t.consumer == stage.stageId
      && resolution.Found? && resolution.resolved.bindingId in env.bindings
      && Given(stage, env.bindings[resolution.resolved.bindingId].defaults, t.port) == Some(t.value)
  {
  }

  lemma TextInGraph(env: Env, p: IntentPlan, plans: seq<StagePlan>, i: nat, t: TextInput)
    requires BuiltGraph.Compiled(env, p, plans) && i < |p.stages| && t in plans[i].inputs
    requires SynthesizedFor(env, p.stages, i, t) && t in WholeDraft(p, plans).inputs
    requires HoldsPlans(p, plans, Assembled(env, p, plans))
    ensures TextRight(env, p.stages[i], t.port, Assembled(env, p, plans))
  {
    TextEdgeIsThere(env, p, plans, i, t);
    InputIsGiven(env, p.stages, i, t);
  }

  /** When no text is lost, every materialized port of a compiled plan has its text input. */
  lemma CompiledTextsAreRight(env: Env, p: IntentPlan, current: WorkflowGraph, r: CompileOutcome, i: nat, port: string)
    requires ResolverSound(env) && Accepted(p) && CompilesTo(env, p, current, r) && r.Compiled?
    requires NoCollision(env, p.stages) && SharedIdsAgree(env, p.stages)
    requires i < |p.stages| && Materialized(env, p.stages[i], port)
    ensures TextRight(env, p.stages[i], port, r.target)
  {
    var plans := BuildLosesNothingExactly(env, p);
    MaterializedInDraft(env, p.stages, plans, i, port);
    var t :| t in plans[i].inputs && t.port == port && SynthesizedFor(env, p.stages, i, t)
      && t in WholeDraft(p, plans).inputs;
    TextInGraph(env, p, plans, i, t);
  }

  // ----- why a stage halts the build -----

  /** A reference finds its source's output, and an input of that name and type. */
  predicate Connects(env: Env, stages: seq<Stage>, definition: NodeDefinition, r: StageInputRef) {
    && FirstWith(stages, r.stageId).Some? && StageDefinition(env, FirstWith(stages, r.stageId).value).Ok?
    && var sp := PortNamed(StageDefinition(env, FirstWith(stages, r.stageId).value).value.outputs, r.output);
    && sp.Some? && exists tp | tp in definition.inputs :: tp.name == r.output && tp.portType == sp.value.portType
  }

  lemma {:induction false} InputIsNamed(ports: seq<PortDefinition>, port: PortDefinition)
    requires port in ports
    ensures InputNamed(ports, port.name, port.portType).Some?
  {
    if !(ports[0].name == port.name && ports[0].portType == port.portType) {
      InputIsNamed(ports[1..], port);
    }
  }

  /** One reference is wired exactly if it connects; otherwise it is the one reported. */
  lemma WiringOne(env: Env, stages: seq<Stage>, stage: Stage, definition: NodeDefinition, r: StageInputRef)
    requires FirstWith(stages, r.stageId).Some?
    ensures WireOne(env, stages, stage, definition, r).Ok? <==> Connects(env, stages, definition, r)
    ensures StageDefinition(env, FirstWith(stages, r.stageId).value).Ok? && !Connects(env, stages, definition, r) ==>
      WireOne(env, stages, stage, definition, r) == Err(PortTypeMismatch(stage.stageId, r.stageId, r.output))
    ensures StageDefinition(env, FirstWith(stages, r.stageId).value).Err? ==>
      WireOne(env, stages, stage, definition, r) == Err(StageDefinition(env, FirstWith(stages, r.stageId).value).error)
  {
    if Connects(env, stages, definition, r) {
      var sp := PortNamed(StageDefinition(env, FirstWith(stages, r.stageId).value).value.outputs, r.output).value;
      var tp :| tp in definition.inputs && tp.name == r.output && tp.portType == sp.portType;
      InputIsNamed(definition.inputs, tp);
    }
  }

  /** Reference `k` is the first that does not connect, or all do and `k` is their number. */
  ghost predicate FirstLoose(
    env: Env, stages: seq<Stage>, definition: NodeDefinition, inputs: seq<StageInputRef>, k: nat) {
    && k <= |inputs| && (forall x | 0 <= x < k :: Connects(env, stages, definition, inputs[x]))
    && (k < |inputs| ==> !Connects(env, stages, definition, inputs[k]))
  }

  function LooseError(env: Env, stages: seq<Stage>, id: string, r: StageInputRef): BuildError
    requires FirstWith(stages, r.stageId).Some?
  {
    var source := StageDefinition(env, FirstWith(stages, r.stageId).value);
    if source.Err? then source.error else PortTypeMismatch(id, r.stageId, r.output)
  }

  lemma FirstLooseLater(
    env: Env, stages: seq<Stage>, definition: NodeDefinition, inputs: seq<StageInputRef>, k: nat)
    requires inputs != [] && Connects(env, stages, definition, inputs[0])
    requires FirstLoose(env, stages, definition, inputs[1..], k)
    ensures FirstLoose(env, stages, definition, inputs, k + 1)
  {
    forall x | 0 <= x < k + 1 ensures Connects(env, stages, definition, inputs[x]) {
      assert x > 0 ==> inputs[x] == inputs[1..][x - 1];
    }
  }

  /** The first reference that does not connect is the one reported. */
  lemma {:induction false} WiringFails(
    env: Env, stages: seq<Stage>, stage: Stage, definition: NodeDefinition, inputs: seq<StageInputRef>)
    returns (k: nat)
    requires InputsKnown(stages, inputs)
    ensures FirstLoose(env, stages, definition, inputs, k)
    ensures WireAll(env, stages, stage, definition, inputs).Ok? <==> k == |inputs|
    ensures k < |inputs| ==>
      && inputs[k] in inputs
      && WireAll(env, stages, stage, definition, inputs) == Err(LooseError(env, stages, stage.stageId, inputs[k]))
  {
    k := 0;
    if inputs != [] {
      assert inputs[0] in inputs;
      WiringOne(env, stages, stage, definition, inputs[0]);
      if Connects(env, stages, definition, inputs[0]) {
        var rest := WiringFails(env, stages, stage, definition, inputs[1..]);
        k := rest + 1;
        FirstLooseLater(env, stages, definition, inputs, rest);
      }
    }
  }

  /** A required input that nothing feeds and no value is given for, or a required param. */
  ghost predicate Lacks(env: Env, stage: Stage, definition: NodeDefinition, defaults: Value, name: string) {
    || (&& (exists p | p in definition.inputs :: p.required && p.name == name)
        && !IsFed(env, stage, name)
        && (Given(stage, defaults, name).None? || Given(stage, defaults, name) == Some(Null)))
    || (name in definition.requiredParams && !LandsOn(stage, name) && Given(stage, defaults, name).None?)
  }

  function Named(id: string, name: string): string { id + "." + name }

  lemma {:induction false} MissingInputsExactly(id: string, ports: seq<PortDefinition>, parts: Parts, m: string)
    ensures m in MissingInputs(id, ports, parts) <==> exists p | p in ports ::
      p.required && !Wired(parts.edges, id, p.name) && !NonNull(parts.params, p.name) && m == Named(id, p.name)
  {
    if ports != [] {
      MissingInputsExactly(id, ports[1..], parts, m);
      assert forall p :: p in ports <==> p == ports[0] || p in ports[1..];
    }
  }

  lemma {:induction false} MissingParamsExactly(
    id: string, required: seq<string>, edges: seq<GraphEdge>, params: map<string, Value>, m: string)
    ensures m in MissingParams(id, required, edges, params) <==> exists k | k in required ::
      k !in params && !Wired(edges, id, k) && m == Named(id, k)
    decreases |required|
  {
    if required != [] {
      var next := if required[0] in params || !Wired(edges, id, required[0]) then params
        else params[required[0] := Str("")];
      MissingParamsExactly(id, required[1..], edges, next, m);
      assert forall k :: k in required <==> k == required[0] || k in required[1..];
    }
  }

  /** What a stage with its references wired is reported to lack. */
  lemma MissingExactly(
    env: Env, stages: seq<Stage>, i: nat, resolved: Resolved, definition: NodeDefinition, wired: seq<GraphEdge>,
    m: string)
    requires i < |stages| && InputsKnown(stages, stages[i].inputFrom)
      && StageDefinition(env, stages[i]) == Ok(definition)
    requires WireAll(env, stages, stages[i], definition, stages[i].inputFrom) == Ok(wired)
    requires env.resolve(stages[i].capabilityId, stages[i].requestedModel) == Found(resolved)
    requires resolved.bindingId in env.bindings
    ensures var s := SiteOf(env, stages, i, definition, wired);
      var parts := MaterializeAll(s.stageId, s.properties, s.ports, s.start);
      var missing := MissingInputs(s.stageId, definition.inputs, parts)
                   + MissingParams(s.stageId, definition.requiredParams, parts.edges, parts.params);
      m in missing <==> exists k ::
        Lacks(env, stages[i], definition, env.bindings[resolved.bindingId].defaults, k) && m == Named(s.stageId, k)
  {
    var s := SiteOf(env, stages, i, definition, wired);
    var parts := MaterializeAll(s.stageId, s.properties, s.ports, s.start);
    MissingInputsExactly(s.stageId, definition.inputs, parts, m);
    MissingParamsExactly(s.stageId, definition.requiredParams, parts.edges, parts.params, m);
    forall k
      ensures k in parts.params <==> k in Literals(env, stages[i]) && !Materialized(env, stages[i], k)
      ensures k in parts.params ==> parts.params[k] == Literals(env, stages[i])[k]
      ensures Wired(parts.edges, stages[i].stageId, k) <==> IsFed(env, stages[i], k)
    {
      PartsOfStage(env, stages, i, definition, wired, k);
    }
    forall k { LiteralsAreGiven(env, stages[i], resolved, k); }
  }

  /** The report of a stage that lacks something: every lacking name once, in order. */
  ghost predicate ReportsLacks(
    env: Env, stage: Stage, definition: NodeDefinition, defaults: Value, r: Result<StagePlan, Halt>) {
    && r.Err? && r.error.Clarify? && r.error.reason == "REQUIRED_INPUT_MISSING"
    && Increasing(r.error.missing) && NamesLacks(env, stage, definition, defaults, r.error.missing)
  }

  ghost predicate NamesLacks(
    env: Env, stage: Stage, definition: NodeDefinition, defaults: Value, missing: seq<string>) {
    forall m :: m in missing <==> exists k :: Lacks(env, stage, definition, defaults, k) && m == Named(stage.stageId, k)
  }

  lemma NothingLacking(env: Env, stage: Stage, definition: NodeDefinition, defaults: Value, missing: seq<string>)
    requires NamesLacks(env, stage, definition, defaults, missing)
    ensures missing == [] <==> !exists k :: Lacks(env, stage, definition, defaults, k)
  {
    assert missing != [] ==> missing[0] in missing;
    forall k | Lacks(env, stage, definition, defaults, k) ensures Named(stage.stageId, k) in missing {}
  }

  lemma Listed(missing: seq<string>)
    ensures Increasing(Dedup(Sort(missing, StrLeq)))
    ensures forall m :: m in Dedup(Sort(missing, StrLeq)) <==> m in missing
  {
    StrLeqPreorder();
    SortSorts(missing, StrLeq);
    DedupIncreases(Sort(missing, StrLeq));
  }

  lemma LackingHalts(env: Env, stages: seq<Stage>, i: nat, definition: NodeDefinition, wired: seq<GraphEdge>)
    requires ResolverSound(env) && i < |stages| && InputsKnown(stages, stages[i].inputFrom)
    requires env.resolve(stages[i].capabilityId, stages[i].requestedModel).Found?
    requires StageDefinition(env, stages[i]) == Ok(definition)
    requires WireAll(env, stages, stages[i], definition, stages[i].inputFrom) == Ok(wired)
    ensures var resolved := env.resolve(stages[i].capabilityId, stages[i].requestedModel).resolved;
      var defaults := env.bindings[resolved.bindingId].defaults;
      if exists k :: Lacks(env, stages[i], definition, defaults, k)
      then ReportsLacks(env, stages[i], definition, defaults, BuildStage(env, stages, i))
      else BuildStage(env, stages, i).Ok?
  {
    var resolved := env.resolve(stages[i].capabilityId, stages[i].requestedModel).resolved;
    var defaults := env.bindings[resolved.bindingId].defaults;
    var s := SiteOf(env, stages, i, definition, wired);
    var parts := MaterializeAll(s.stageId, s.properties, s.ports, s.start);
    var missing := MissingInputs(s.stageId, definition.inputs, parts)
                 + MissingParams(s.stageId, definition.requiredParams, parts.edges, parts.params);
    forall m
      ensures m in missing <==> exists k :: Lacks(env, stages[i], definition, defaults, k) && m == Named(s.stageId, k)
    {
      MissingExactly(env, stages, i, resolved, definition, wired, m);
    }
    assert NamesLacks(env, stages[i], definition, defaults, missing);
    NothingLacking(env, stages[i], definition, defaults, missing);
    Listed(missing);
  }

  /** The outcome of compiling one stage, in the order of the checks: the resolver's verdict,
      the stage's own node type, the first reference that does not connect, what is lacking. */
  lemma StageOutcome(env: Env, stages: seq<Stage>, i: nat) returns (k: nat)
    requires ResolverSound(env) && i < |stages| && InputsKnown(stages, stages[i].inputFrom)
    ensures var r, stage := BuildStage(env, stages, i), stages[i];
      var resolution := env.resolve(stage.capabilityId, stage.requestedModel);
      && (resolution.BindingNotFound? ==> r == Err(Clarify("BINDING_NOT_FOUND", [stage.stageId + ".model"])))
      && (resolution.Recoverable? ==> r == Err(Clarify(resolution.code, [stage.stageId + ".model"])))
      && (resolution.Unrecoverable? ==> r == Err(Fail(Resolve(resolution.code))))
      && (resolution.Found? ==>
            if stage.capabilityId !in env.nodeTypes then r == Err(Fail(UnmappedCapability(stage.capabilityId)))
            else if env.nodeTypes[stage.capabilityId] !in env.definitions
            then r == Err(Fail(GraphInvalid("CAPABILITY_NOT_FOUND")))
            else
              var definition := env.definitions[env.nodeTypes[stage.capabilityId]];
              FoundOutcome(env, stages, i, definition, resolution.resolved, k))
  {
    k := 0;
    var stage := stages[i];
    if env.resolve(stage.capabilityId, stage.requestedModel).Found? && StageDefinition(env, stage).Ok? {
      var definition := StageDefinition(env, stage).value;
      k := WiringFails(env, stages, stage, definition, stage.inputFrom);
      if k == |stage.inputFrom| {
        LackingHalts(env, stages, i, definition, WireAll(env, stages, stage, definition, stage.inputFrom).value);
      }
    }
  }

  /** A resolved stage with a registered type is compiled, or its first loose reference is
      reported, or all that it lacks. */
  ghost predicate FoundOutcome(
    env: Env, stages: seq<Stage>, i: nat, definition: NodeDefinition, resolved: Resolved, k: nat)
    requires ResolverSound(env) && i < |stages| && InputsKnown(stages, stages[i].inputFrom)
  {
    var r, stage := BuildStage(env, stages, i), stages[i];
    && FirstLoose(env, stages, definition, stage.inputFrom, k) && resolved.bindingId in env.bindings
    && var defaults := env.bindings[resolved.bindingId].defaults;
    if k < |stage.inputFrom| then
      && stage.inputFrom[k] in stage.inputFrom
      && r == Err(Fail(LooseError(env, stages, stage.stageId, stage.inputFrom[k])))
    else if exists name :: Lacks(env, stage, definition, defaults, name)
    then ReportsLacks(env, stage, definition, defaults, r)
    else r.Ok?
  }

  /** A build is halted by the first stage that halts, with its halt: those before are drafted. */
  lemma {:induction false} FirstHaltHalts(env: Env, stages: seq<Stage>, n: nat) returns (i: nat)
    requires ResolverSound(env) && StagesOrdered(stages) && n <= |stages| && Drafted(env, stages, n).Err?
    ensures i < n && InputsKnown(stages, stages[i].inputFrom) && Drafted(env, stages, i).Ok?
    ensures BuildStage(env, stages, i) == Err(Drafted(env, stages, n).error)
  {
    if Drafted(env, stages, n - 1).Err? {
      i := FirstHaltHalts(env, stages, n - 1);
    } else {
      i := n - 1;
      InputsAreKnown(stages, n - 1);
    }
  }
}
