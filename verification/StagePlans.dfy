/** One stage at a time: what a compiled stage contributes, what the stages add up to, and
    when nothing of it is lost to a collision of ids. */
module StagePlans {
  import opened Json
  import opened Ordering
  import opened Graph
  import opened Intent
  import opened GraphBuilder

  predicate TextPort(ports: seq<PortDefinition>, name: string) {
    exists p | p in ports :: p.required && p.portType == Text && p.name == name
  }

  function EdgeOf(t: TextInput): GraphEdge {
    GraphEdge(Port(t.id, "text"), Port(t.consumer, t.port), "text")
  }

  /** The first output of that name and an input of that name, of one type, with that type
      on the edge. */
  ghost predicate JoinsEqualTypes(source: NodeDefinition, target: NodeDefinition, e: GraphEdge) {
    var sp := PortNamed(source.outputs, e.from.name);
    && sp.Some?
    && (exists tp | tp in target.inputs :: tp.name == e.to.name && tp.portType == sp.value.portType)
    && e.edgeType == PortTypeLabel(sp.value.portType)
  }

  // ----- one stage -----

  /** The edge realizes one input reference of stage `i`. */
  ghost predicate StageEdge(env: Env, stages: seq<Stage>, i: nat, e: GraphEdge)
    requires i < |stages|
  {
    && e.to.node == stages[i].stageId
    && exists j | 0 <= j < |stages| ::
      && e.from.node == stages[j].stageId && Consumes(stages, i, j)
      && StageDefinition(env, stages[j]).Ok? && StageDefinition(env, stages[i]).Ok?
      && JoinsEqualTypes(StageDefinition(env, stages[j]).value, StageDefinition(env, stages[i]).value, e)
  }

  lemma WireOneSound(
    env: Env, stages: seq<Stage>, i: nat, definition: NodeDefinition, input: StageInputRef)
    requires i < |stages| && input in stages[i].inputFrom && FirstWith(stages, input.stageId).Some?
    requires StageDefinition(env, stages[i]) == Ok(definition)
    requires WireOne(env, stages, stages[i], definition, input).Ok?
    ensures StageEdge(env, stages, i, WireOne(env, stages, stages[i], definition, input).value)
  {
    var e := WireOne(env, stages, stages[i], definition, input).value;
    var source := FirstWith(stages, input.stageId).value;
    var j :| 0 <= j < |stages| && stages[j] == source;
    assert Consumes(stages, i, j);
    var sourceDefinition := StageDefinition(env, source).value;
    var sp := PortNamed(sourceDefinition.outputs, input.output).value;
    var tp := InputNamed(definition.inputs, input.output, sp.portType).value;
    assert JoinsEqualTypes(sourceDefinition, definition, e);
  }

  lemma {:induction false} WireAllSound(
    env: Env, stages: seq<Stage>, i: nat, definition: NodeDefinition, inputs: seq<StageInputRef>)
    requires i < |stages| && InputsKnown(stages, inputs)
    requires forall r | r in inputs :: r in stages[i].inputFrom
    requires StageDefinition(env, stages[i]) == Ok(definition)
    requires WireAll(env, stages, stages[i], definition, inputs).Ok?
    ensures forall e | e in WireAll(env, stages, stages[i], definition, inputs).value :: StageEdge(env, stages, i, e)
  {
    if inputs != [] {
      assert inputs[0] in inputs;
      WireOneSound(env, stages, i, definition, inputs[0]);
      WireAllSound(env, stages, i, definition, inputs[1..]);
    }
  }

  // ----- which ports are materialized, seen from the plan -----

  /** The literal values a stage is compiled with: its params over the binding's defaults. */
  function Literals(env: Env, stage: Stage): map<string, Value> {
    var resolution := env.resolve(stage.capabilityId, stage.requestedModel);
    if !resolution.Found? || resolution.resolved.bindingId !in env.bindings then map[]
    else Fields(env.bindings[resolution.resolved.bindingId].defaults) + Fields(stage.params)
  }

  predicate LandsOn(stage: Stage, port: string) { exists r | r in stage.inputFrom :: r.output == port }

  /** The port gets a text input of its own: it is a required text port outside the schema,
      no reference lands on it, and a literal value is given for it. */
  predicate Materialized(env: Env, stage: Stage, port: string) {
    && StageDefinition(env, stage).Ok?
    && TextPort(StageDefinition(env, stage).value.inputs, port)
    && port !in StageDefinition(env, stage).value.paramProperties
    && !LandsOn(stage, port)
    && port in Literals(env, stage)
  }

  /** The text input of a materialized port of stage `i`. */
  ghost predicate SynthesizedFor(env: Env, stages: seq<Stage>, i: nat, t: TextInput) {
    && i < |stages| && Materialized(env, stages[i], t.port)
    && t == TextInput(InputId(stages[i].stageId, t.port), stages[i].stageId, t.port, Literals(env, stages[i])[t.port])
  }

  lemma {:induction false} WireAllPorts(
    env: Env, stages: seq<Stage>, stage: Stage, definition: NodeDefinition, inputs: seq<StageInputRef>, port: string)
    requires InputsKnown(stages, inputs) && WireAll(env, stages, stage, definition, inputs).Ok?
    ensures Wired(WireAll(env, stages, stage, definition, inputs).value, stage.stageId, port)
      <==> exists r | r in inputs :: r.output == port
  {
    if inputs != [] {
      assert inputs[0] in inputs;
      WireAllPorts(env, stages, stage, definition, inputs[1..], port);
      WiredFirst(WireOne(env, stages, stage, definition, inputs[0]).value,
                 WireAll(env, stages, stage, definition, inputs[1..]).value, stage.stageId, port);
      assert forall r :: r in inputs <==> r == inputs[0] || r in inputs[1..];
    }
  }

  lemma WiredFirst(e: GraphEdge, rest: seq<GraphEdge>, stageId: string, port: string)
    ensures Wired([e] + rest, stageId, port) <==> e.to == Port(stageId, port) || Wired(rest, stageId, port)
  {
    var all := [e] + rest;
    assert e in all;
    assert forall x :: x in all <==> x == e || x in rest;
  }

  // ----- materializing, port by port -----

  /** Everything but the ports is fixed while a stage is materialized. */
  datatype Site = Site(stageId: string, properties: set<string>, ports: seq<PortDefinition>, start: Parts)

  predicate MayMaterialize(s: Site, port: string) {
    TextPort(s.ports, port) && port !in s.properties && port in s.start.params && !Wired(s.start.edges, s.stageId, port)
  }

  function InputFor(s: Site, port: string): TextInput
    requires port in s.start.params
  {
    TextInput(InputId(s.stageId, port), s.stageId, port, s.start.params[port])
  }

  predicate Serves(inputs: seq<TextInput>, port: string) { exists t | t in inputs :: t.port == port }

  /** Every input is that of a port that may be materialized, and no port has two. */
  ghost predicate InputsSound(s: Site, inputs: seq<TextInput>) {
    && (forall t | t in inputs :: MayMaterialize(s, t.port) && t == InputFor(s, t.port))
    && (forall a, b | 0 <= a < b < |inputs| :: inputs[a].port != inputs[b].port)
  }

  /** Edges are the wired ones and one per text input. */
  ghost predicate EdgesSound(s: Site, parts: Parts) {
    && (forall e | e in s.start.edges :: e in parts.edges)
    && (forall e | e in parts.edges :: e in s.start.edges || exists t | t in parts.inputs :: e == EdgeOf(t))
    && (forall t | t in parts.inputs :: EdgeOf(t) in parts.edges)
  }

  /** Params are the given ones without those that became text inputs. */
  ghost predicate ParamsSound(s: Site, parts: Parts) {
    && (forall k :: k in parts.params <==> k in s.start.params && !Serves(parts.inputs, k))
    && (forall k | k in parts.params :: parts.params[k] == s.start.params[k])
  }

  ghost predicate PartsSound(s: Site, parts: Parts) {
    InputsSound(s, parts.inputs) && EdgesSound(s, parts) && ParamsSound(s, parts)
  }

  /** A port is wired once it was wired from the start or has its input. */
  lemma WiredNow(s: Site, parts: Parts, port: string)
    requires PartsSound(s, parts)
    ensures Wired(parts.edges, s.stageId, port) <==> Wired(s.start.edges, s.stageId, port) || Serves(parts.inputs, port)
  {
    if Serves(parts.inputs, port) {
      var t :| t in parts.inputs && t.port == port;
      assert EdgeOf(t) in parts.edges && EdgeOf(t).to == Port(s.stageId, port);
    }
  }

  lemma MaterializeSound(s: Site, port: PortDefinition, parts: Parts)
    requires port in s.ports && PartsSound(s, parts)
    ensures PartsSound(s, Materialize(s.stageId, s.properties, port, parts))
    ensures forall k | Serves(parts.inputs, k) :: Serves(Materialize(s.stageId, s.properties, port, parts).inputs, k)
    ensures port.required && port.portType == Text && MayMaterialize(s, port.name) ==>
      Serves(Materialize(s.stageId, s.properties, port, parts).inputs, port.name)
  {
    WiredNow(s, parts, port.name);
    var next := Materialize(s.stageId, s.properties, port, parts);
    if next != parts {
      assert TextPort(s.ports, port.name) && MayMaterialize(s, port.name);
      MaterializedParts(s, port.name, parts);
    }
  }

  function WithInput(s: Site, port: string, parts: Parts): Parts
    requires port in s.start.params
  {
    Parts(parts.params - {port}, parts.edges + [EdgeOf(InputFor(s, port))], parts.inputs + [InputFor(s, port)])
  }

  lemma MaterializedParts(s: Site, port: string, parts: Parts)
    requires PartsSound(s, parts) && MayMaterialize(s, port) && !Serves(parts.inputs, port)
    ensures PartsSound(s, WithInput(s, port, parts))
    ensures Serves(WithInput(s, port, parts).inputs, port)
    ensures forall k | Serves(parts.inputs, k) :: Serves(WithInput(s, port, parts).inputs, k)
  {
    ServesMore(parts.inputs, InputFor(s, port));
    MoreInputs(s, port, parts);
    MoreEdges(s, port, parts);
  }

  lemma MoreInputs(s: Site, port: string, parts: Parts)
    requires InputsSound(s, parts.inputs) && MayMaterialize(s, port) && !Serves(parts.inputs, port)
    ensures InputsSound(s, WithInput(s, port, parts).inputs)
  {
    assert forall a | 0 <= a < |parts.inputs| :: parts.inputs[a] in parts.inputs;
  }

  lemma MoreEdges(s: Site, port: string, parts: Parts)
    requires EdgesSound(s, parts) && port in s.start.params
    ensures EdgesSound(s, WithInput(s, port, parts))
  {
    var t, next := InputFor(s, port), WithInput(s, port, parts);
    forall e | e in next.edges ensures e in s.start.edges || exists u | u in next.inputs :: e == EdgeOf(u) {
      if e == EdgeOf(t) { assert t in next.inputs; } else { assert e in parts.edges; }
    }
  }

  lemma ServesMore(inputs: seq<TextInput>, t: TextInput)
    ensures forall k :: Serves(inputs + [t], k) <==> Serves(inputs, k) || k == t.port
  {
    assert forall u :: u in inputs + [t] <==> u in inputs || u == t;
  }

  lemma {:induction false} MaterializeAllSound(s: Site, ports: seq<PortDefinition>, parts: Parts)
    requires (forall p | p in ports :: p in s.ports) && PartsSound(s, parts)
    ensures var r := MaterializeAll(s.stageId, s.properties, ports, parts);
      && PartsSound(s, r)
      && (forall k | Serves(parts.inputs, k) :: Serves(r.inputs, k))
      && (forall p | p in ports && p.required && p.portType == Text && MayMaterialize(s, p.name) ::
            Serves(r.inputs, p.name))
    decreases |ports|
  {
    if ports != [] {
      MaterializeSound(s, ports[0], parts);
      MaterializeAllSound(s, ports[1..], Materialize(s.stageId, s.properties, ports[0], parts));
      assert forall p :: p in ports <==> p == ports[0] || p in ports[1..];
    }
  }

  lemma SiteComplete(s: Site)
    requires s.start.inputs == []
    ensures PartsSound(s, MaterializeAll(s.stageId, s.properties, s.ports, s.start))
    ensures forall k | MayMaterialize(s, k) ::
      Serves(MaterializeAll(s.stageId, s.properties, s.ports, s.start).inputs, k)
  {
    MaterializeAllSound(s, s.ports, s.start);
  }

  lemma {:induction false} NothingMissing(stageId: string, ports: seq<PortDefinition>, parts: Parts)
    ensures MissingInputs(stageId, ports, parts) == [] <==>
      forall p | p in ports && p.required :: Wired(parts.edges, stageId, p.name) || NonNull(parts.params, p.name)
  {
    if ports != [] {
      NothingMissing(stageId, ports[1..], parts);
      assert forall p :: p in ports <==> p == ports[0] || p in ports[1..];
    }
  }

  lemma {:induction false} ParamsFilled(
    stageId: string, required: seq<string>, edges: seq<GraphEdge>, params: map<string, Value>)
    ensures var filled := FillParams(stageId, required, edges, params);
      && (forall k | k in params :: k in filled && filled[k] == params[k])
      && (MissingParams(stageId, required, edges, params) == [] ==> forall k | k in required :: k in filled)
    decreases |required|
  {
    if required != [] {
      var next := if required[0] in params || !Wired(edges, stageId, required[0]) then params
        else params[required[0] := Str("")];
      ParamsFilled(stageId, required[1..], edges, next);
      assert forall k :: k in required <==> k == required[0] || k in required[1..];
    }
  }

  // ----- one stage -----

  /** The inputs of a stage are exactly those of its materialized ports, one each. */
  ghost predicate InputsExact(env: Env, stages: seq<Stage>, i: nat, inputs: seq<TextInput>)
    requires i < |stages|
  {
    && (forall t | t in inputs :: SynthesizedFor(env, stages, i, t))
    && (forall port | Materialized(env, stages[i], port) :: Serves(inputs, port))
    && (forall a, b | 0 <= a < b < |inputs| :: inputs[a].port != inputs[b].port)
  }

  /** The node and the edges a stage contributes. */
  ghost predicate StageSound(env: Env, stages: seq<Stage>, i: nat, plan: StagePlan)
    requires i < |stages|
  {
    var id := stages[i].stageId;
    && StageDefinition(env, stages[i]).Ok?
    && var definition := StageDefinition(env, stages[i]).value;
    && plan.node.nodeType == env.nodeTypes[stages[i].capabilityId]
    && plan.node.semantics.Some? && plan.node.params.Obj? && plan.node.size == None
    && (forall e | e in plan.edges :: StageEdge(env, stages, i, e) || exists t | t in plan.inputs :: e == EdgeOf(t))
    && (forall t | t in plan.inputs :: EdgeOf(t) in plan.edges)
    && InputsExact(env, stages, i, plan.inputs)
    && (forall p | p in definition.inputs && p.required ::
          Wired(plan.edges, id, p.name) || NonNull(plan.node.params.fields, p.name))
    && (forall k | k in definition.requiredParams :: k in plan.node.params.fields)
  }

  function TextEdges(inputs: seq<TextInput>): seq<GraphEdge> {
    seq(|inputs|, k requires 0 <= k < |inputs| => EdgeOf(inputs[k]))
  }

  /** One edge per reference, in their order, and then one per text input. */
  ghost predicate EdgesExact(stage: Stage, edges: seq<GraphEdge>, inputs: seq<TextInput>) {
    var refs := stage.inputFrom;
    && |edges| == |refs| + |inputs|
    && (forall x | 0 <= x < |refs| ::
          edges[x].from == Port(refs[x].stageId, refs[x].output) && edges[x].to == Port(stage.stageId, refs[x].output))
    && edges[|refs|..] == TextEdges(inputs)
  }

  ghost predicate PlanSound(env: Env, stages: seq<Stage>, i: nat, plan: StagePlan)
    requires i < |stages|
  {
    StageSound(env, stages, i, plan) && EdgesExact(stages[i], plan.edges, plan.inputs)
  }

  lemma {:induction false} WiredInOrder(
    env: Env, stages: seq<Stage>, stage: Stage, definition: NodeDefinition, inputs: seq<StageInputRef>)
    requires InputsKnown(stages, inputs) && WireAll(env, stages, stage, definition, inputs).Ok?
    ensures var wired := WireAll(env, stages, stage, definition, inputs).value;
      && |wired| == |inputs|
      && forall x | 0 <= x < |inputs| ::
          wired[x].from == Port(inputs[x].stageId, inputs[x].output)
          && wired[x].to == Port(stage.stageId, inputs[x].output)
  {
    if inputs != [] {
      assert inputs[0] in inputs;
      WiredInOrder(env, stages, stage, definition, inputs[1..]);
    }
  }

  lemma {:induction false} MaterializedEdges(
    stageId: string, properties: set<string>, ports: seq<PortDefinition>, parts: Parts, wired: seq<GraphEdge>)
    requires parts.edges == wired + TextEdges(parts.inputs) && forall t | t in parts.inputs :: t.consumer == stageId
    ensures var r := MaterializeAll(stageId, properties, ports, parts); r.edges == wired + TextEdges(r.inputs)
    decreases |ports|
  {
    if ports != [] {
      var next := Materialize(stageId, properties, ports[0], parts);
      if next != parts {
        var t := next.inputs[|parts.inputs|];
        assert TextEdges(parts.inputs + [t]) == TextEdges(parts.inputs) + [EdgeOf(t)];
        assert next.inputs == parts.inputs + [t] && next.edges == parts.edges + [EdgeOf(t)];
      }
      MaterializedEdges(stageId, properties, ports[1..], next, wired);
    }
  }

  lemma BuildStageEdges(env: Env, stages: seq<Stage>, i: nat)
    requires ResolverSound(env) && i < |stages| && InputsKnown(stages, stages[i].inputFrom)
    requires BuildStage(env, stages, i).Ok?
    ensures var plan := BuildStage(env, stages, i).value; EdgesExact(stages[i], plan.edges, plan.inputs)
  {
    var stage := stages[i];
    var definition := StageDefinition(env, stage).value;
    var wired := WireAll(env, stages, stage, definition, stage.inputFrom).value;
    WiredInOrder(env, stages, stage, definition, stage.inputFrom);
    var start := SiteOf(env, stages, i, definition, wired).start;
    assert start.edges == wired + TextEdges([]);
    MaterializedEdges(stage.stageId, definition.paramProperties, definition.inputs, start, wired);
  }

  function SiteOf(env: Env, stages: seq<Stage>, i: nat, definition: NodeDefinition, wired: seq<GraphEdge>): Site
    requires i < |stages|
  {
    Site(stages[i].stageId, definition.paramProperties, definition.inputs, Parts(Literals(env, stages[i]), wired, []))
  }

  lemma SiteIsExact(
    env: Env, stages: seq<Stage>, i: nat, definition: NodeDefinition, wired: seq<GraphEdge>)
    requires i < |stages| && InputsKnown(stages, stages[i].inputFrom)
      && StageDefinition(env, stages[i]) == Ok(definition)
    requires WireAll(env, stages, stages[i], definition, stages[i].inputFrom) == Ok(wired)
    ensures var s := SiteOf(env, stages, i, definition, wired);
      InputsExact(env, stages, i, MaterializeAll(s.stageId, s.properties, s.ports, s.start).inputs)
  {
    var s := SiteOf(env, stages, i, definition, wired);
    SiteComplete(s);
    forall port ensures MayMaterialize(s, port) <==> Materialized(env, stages[i], port) {
      WireAllPorts(env, stages, stages[i], definition, stages[i].inputFrom, port);
    }
  }

  lemma SiteEdges(
    env: Env, stages: seq<Stage>, i: nat, definition: NodeDefinition, wired: seq<GraphEdge>)
    requires i < |stages| && InputsKnown(stages, stages[i].inputFrom)
      && StageDefinition(env, stages[i]) == Ok(definition)
    requires WireAll(env, stages, stages[i], definition, stages[i].inputFrom) == Ok(wired)
    ensures var s := SiteOf(env, stages, i, definition, wired);
      var parts := MaterializeAll(s.stageId, s.properties, s.ports, s.start);
      && (forall e | e in parts.edges :: StageEdge(env, stages, i, e) || exists t | t in parts.inputs :: e == EdgeOf(t))
      && (forall t | t in parts.inputs :: EdgeOf(t) in parts.edges)
  {
    WireAllSound(env, stages, i, definition, stages[i].inputFrom);
    SiteComplete(SiteOf(env, stages, i, definition, wired));
  }

  lemma BuildStageSound(env: Env, stages: seq<Stage>, i: nat)
    requires ResolverSound(env) && i < |stages| && InputsKnown(stages, stages[i].inputFrom)
    requires BuildStage(env, stages, i).Ok?
    ensures StageSound(env, stages, i, BuildStage(env, stages, i).value)
  {
    var stage := stages[i];
    var definition := StageDefinition(env, stage).value;
    var wired := WireAll(env, stages, stage, definition, stage.inputFrom).value;
    var s := SiteOf(env, stages, i, definition, wired);
    SiteIsExact(env, stages, i, definition, wired);
    SiteEdges(env, stages, i, definition, wired);
    var parts := MaterializeAll(s.stageId, s.properties, s.ports, s.start);
    NothingMissing(stage.stageId, definition.inputs, parts);
    ParamsFilled(stage.stageId, definition.requiredParams, parts.edges, parts.params);
  }

  // ----- the draft -----

  /** The draft that the first `n` stage plans add up to. */
  function DraftOf(stages: seq<Stage>, plans: seq<StagePlan>, n: nat): Draft
    requires n <= |stages| && n <= |plans|
  {
    if n == 0 then Draft(map[], [], [], [])
    else AddStage(DraftOf(stages, plans, n - 1), stages[n - 1].stageId, plans[n - 1])
  }

  ghost predicate PlansSound(env: Env, stages: seq<Stage>, plans: seq<StagePlan>) {
    |plans| <= |stages| && forall i | 0 <= i < |plans| :: PlanSound(env, stages, i, plans[i])
  }

  /** The plan is what stage `i` is compiled to. */
  ghost predicate IsBuilt(env: Env, stages: seq<Stage>, i: nat, plan: StagePlan)
    requires i < |stages|
  {
    && ResolverSound(env) && InputsKnown(stages, stages[i].inputFrom)
    && BuildStage(env, stages, i) == Ok(plan)
  }

  ghost predicate AllBuilt(env: Env, stages: seq<Stage>, plans: seq<StagePlan>) {
    |plans| <= |stages| && forall i | 0 <= i < |plans| :: IsBuilt(env, stages, i, plans[i])
  }

  /** Stage `k` turns one draft into the next, with the sound plan it is compiled to. */
  ghost predicate SoundStep(env: Env, stages: seq<Stage>, k: nat, before: Draft, after: Draft)
    requires k < |stages|
  {
    exists plan ::
      && PlanSound(env, stages, k, plan) && IsBuilt(env, stages, k, plan)
      && after == AddStage(before, stages[k].stageId, plan)
  }

  lemma DraftedStep(env: Env, stages: seq<Stage>, k: nat)
    requires ResolverSound(env) && StagesOrdered(stages) && k < |stages| && Drafted(env, stages, k + 1).Ok?
    ensures Drafted(env, stages, k).Ok?
    ensures SoundStep(env, stages, k, Drafted(env, stages, k).value, Drafted(env, stages, k + 1).value)
  {
    InputsAreKnown(stages, k);
    BuildStageSound(env, stages, k);
    BuildStageEdges(env, stages, k);
    assert IsBuilt(env, stages, k, BuildStage(env, stages, k).value);
  }

  lemma AllDrafted(env: Env, stages: seq<Stage>)
    requires ResolverSound(env) && StagesOrdered(stages) && Drafted(env, stages, |stages|).Ok?
    ensures forall k | 0 <= k <= |stages| :: Drafted(env, stages, k).Ok?
  {
    forall k | 0 <= k <= |stages| ensures Drafted(env, stages, k).Ok? {
      if Drafted(env, stages, k).Err? {
        HaltsStay(env, stages, k, |stages|);
      }
    }
  }

  /** The draft after each stage, when no stage halts. */
  function Drafts(env: Env, stages: seq<Stage>): (drafts: seq<Draft>)
    requires ResolverSound(env) && StagesOrdered(stages) && Drafted(env, stages, |stages|).Ok?
    ensures |drafts| == |stages| + 1
    ensures forall k | 0 <= k <= |stages| :: Drafted(env, stages, k) == Ok(drafts[k])
  {
    AllDrafted(env, stages);
    seq(|stages| + 1, k requires 0 <= k <= |stages| => Drafted(env, stages, k).value)
  }

  lemma DraftsStep(env: Env, stages: seq<Stage>)
    requires ResolverSound(env) && StagesOrdered(stages) && Drafted(env, stages, |stages|).Ok?
    ensures Drafts(env, stages)[0] == NO_DRAFT
    ensures forall k | 0 <= k < |stages| ::
      SoundStep(env, stages, k, Drafts(env, stages)[k], Drafts(env, stages)[k + 1])
  {
    var drafts := Drafts(env, stages);
    assert Drafted(env, stages, 0) == Ok(drafts[0]);
    forall k | 0 <= k < |stages| ensures SoundStep(env, stages, k, drafts[k], drafts[k + 1]) {
      assert Drafted(env, stages, k) == Ok(drafts[k]) && Drafted(env, stages, k + 1) == Ok(drafts[k + 1]);
      DraftedStep(env, stages, k);
    }
  }

  const NO_DRAFT := Draft(map[], [], [], [])

  /** A draft is what the sound plans of its stages add up to. */
  lemma {:induction false} PlansOf(
    env: Env, stages: seq<Stage>, drafts: seq<Draft>, n: nat) returns (plans: seq<StagePlan>)
    requires n < |drafts| && n <= |stages| && drafts[0] == NO_DRAFT
    requires forall k | 0 <= k < n :: SoundStep(env, stages, k, drafts[k], drafts[k + 1])
    ensures |plans| == n && PlansSound(env, stages, plans) && DraftOf(stages, plans, n) == drafts[n]
    ensures AllBuilt(env, stages, plans)
  {
    plans := [];
    if n > 0 {
      var before := PlansOf(env, stages, drafts, n - 1);
      assert SoundStep(env, stages, n - 1, drafts[n - 1], drafts[n]);
      var plan :| PlanSound(env, stages, n - 1, plan) && IsBuilt(env, stages, n - 1, plan)
        && drafts[n] == AddStage(drafts[n - 1], stages[n - 1].stageId, plan);
      plans := before + [plan];
      OneMoreSound(env, stages, before, plan);
      OneMoreBuilt(env, stages, before, plan);
      DraftOfMore(stages, before, plan);
    }
  }

  lemma OneMoreSound(env: Env, stages: seq<Stage>, plans: seq<StagePlan>, plan: StagePlan)
    requires |plans| < |stages| && PlansSound(env, stages, plans) && PlanSound(env, stages, |plans|, plan)
    ensures PlansSound(env, stages, plans + [plan])
  {
    var more := plans + [plan];
    forall i | 0 <= i < |more| ensures PlanSound(env, stages, i, more[i]) {
      assert more[i] == if i < |plans| then plans[i] else plan;
    }
  }

  lemma OneMoreBuilt(env: Env, stages: seq<Stage>, plans: seq<StagePlan>, plan: StagePlan)
    requires |plans| < |stages| && AllBuilt(env, stages, plans) && IsBuilt(env, stages, |plans|, plan)
    ensures AllBuilt(env, stages, plans + [plan])
  {
    var more := plans + [plan];
    forall i | 0 <= i < |more| ensures IsBuilt(env, stages, i, more[i]) {
      assert more[i] == if i < |plans| then plans[i] else plan;
    }
  }

  lemma DraftOfMore(stages: seq<Stage>, plans: seq<StagePlan>, plan: StagePlan)
    requires |plans| < |stages|
    ensures DraftOf(stages, plans + [plan], |plans| + 1)
         == AddStage(DraftOf(stages, plans, |plans|), stages[|plans|].stageId, plan)
  {
    DraftOfPrefix(stages, plans, plans + [plan], |plans|);
  }

  lemma {:induction false} DraftOfPrefix(stages: seq<Stage>, a: seq<StagePlan>, b: seq<StagePlan>, n: nat)
    requires n <= |stages| && n <= |a| && a <= b
    ensures DraftOf(stages, a, n) == DraftOf(stages, b, n)
  {
    if n > 0 { DraftOfPrefix(stages, a, b, n - 1); }
  }

  lemma {:induction false} PartsInDraft(stages: seq<Stage>, plans: seq<StagePlan>, n: nat, i: nat)
    requires i < n <= |stages| && n <= |plans|
    ensures forall e | e in plans[i].edges :: e in DraftOf(stages, plans, n).edges
    ensures forall t | t in plans[i].inputs :: t in DraftOf(stages, plans, n).inputs
  {
    if i < n - 1 { PartsInDraft(stages, plans, n - 1, i); }
  }

  lemma {:induction false} EdgeOrigin(stages: seq<Stage>, plans: seq<StagePlan>, n: nat, e: GraphEdge)
    requires n <= |stages| && n <= |plans| && e in DraftOf(stages, plans, n).edges
    ensures exists i | 0 <= i < n :: e in plans[i].edges
  {
    if e !in plans[n - 1].edges { EdgeOrigin(stages, plans, n - 1, e); }
  }

  lemma {:induction false} InputOrigin(stages: seq<Stage>, plans: seq<StagePlan>, n: nat, t: TextInput)
    requires n <= |stages| && n <= |plans| && t in DraftOf(stages, plans, n).inputs
    ensures exists i | 0 <= i < n :: t in plans[i].inputs
  {
    if t !in plans[n - 1].inputs { InputOrigin(stages, plans, n - 1, t); }
  }

  // ----- its nodes -----

  function SynthesizedIds(inputs: seq<TextInput>): set<string> { set t | t in inputs :: t.id }

  function StageIds(stages: seq<Stage>, n: nat): set<string>
    requires n <= |stages|
  {
    set i | 0 <= i < n :: stages[i].stageId
  }

  lemma {:induction false} AddInputsKeys(nodes: map<string, GraphNode>, inputs: seq<TextInput>)
    ensures AddInputs(nodes, inputs).Keys == nodes.Keys + SynthesizedIds(inputs)
    decreases |inputs|
  {
    if inputs != [] {
      AddInputsKeys(nodes[inputs[0].id := TextNode(inputs[0].value)], inputs[1..]);
      assert SynthesizedIds(inputs) == {inputs[0].id} + SynthesizedIds(inputs[1..]) by {
        assert forall t :: t in inputs <==> t == inputs[0] || t in inputs[1..];
      }
    }
  }

  /** The node is a text input that holds its text. */
  predicate IsText(n: GraphNode) {
    n.params.Obj? && "text" in n.params.fields && n == TextNode(n.params.fields["text"])
  }

  /** A node that no input overwrites stays; an id that held a text still does. */
  lemma {:induction false} AddInputsAt(nodes: map<string, GraphNode>, inputs: seq<TextInput>, id: string)
    ensures id in nodes && id !in SynthesizedIds(inputs) ==>
      id in AddInputs(nodes, inputs) && AddInputs(nodes, inputs)[id] == nodes[id]
    ensures (id in nodes && IsText(nodes[id])) || id in SynthesizedIds(inputs) ==>
      id in AddInputs(nodes, inputs) && IsText(AddInputs(nodes, inputs)[id])
    decreases |inputs|
  {
    if inputs != [] {
      AddInputsAt(nodes[inputs[0].id := TextNode(inputs[0].value)], inputs[1..], id);
      assert forall t :: t in inputs <==> t == inputs[0] || t in inputs[1..];
    }
  }

  /** Where all inputs of an id have one value, that value is the text in the end. */
  lemma {:induction false} AddInputsText(
    nodes: map<string, GraphNode>, inputs: seq<TextInput>, id: string, value: Value)
    requires forall t | t in inputs && t.id == id :: t.value == value
    requires (id in nodes && nodes[id] == TextNode(value)) || id in SynthesizedIds(inputs)
    ensures id in AddInputs(nodes, inputs) && AddInputs(nodes, inputs)[id] == TextNode(value)
    decreases |inputs|
  {
    if inputs != [] {
      assert forall t :: t in inputs <==> t == inputs[0] || t in inputs[1..];
      AddInputsText(nodes[inputs[0].id := TextNode(inputs[0].value)], inputs[1..], id, value);
    }
  }

  lemma {:induction false} DraftKeys(stages: seq<Stage>, plans: seq<StagePlan>, n: nat)
    requires n <= |stages| && n <= |plans|
    ensures var draft := DraftOf(stages, plans, n);
      draft.nodes.Keys == StageIds(stages, n) + SynthesizedIds(draft.inputs)
  {
    if n > 0 {
      DraftKeys(stages, plans, n - 1);
      var before := DraftOf(stages, plans, n - 1);
      AddInputsKeys(before.nodes, plans[n - 1].inputs);
      assert StageIds(stages, n) == StageIds(stages, n - 1) + {stages[n - 1].stageId};
      SynthesizedIdsAppend(before.inputs, plans[n - 1].inputs);
    }
  }

  lemma SynthesizedIdsAppend(a: seq<TextInput>, b: seq<TextInput>)
    ensures SynthesizedIds(a + b) == SynthesizedIds(a) + SynthesizedIds(b)
  {
    assert forall t :: t in a + b <==> t in a || t in b;
  }

  /** No synthesized id is a stage id. */
  ghost predicate Apart(stages: seq<Stage>, draft: Draft) {
    forall i | 0 <= i < |stages| :: stages[i].stageId !in SynthesizedIds(draft.inputs)
  }

  ghost predicate StagesOwn(stages: seq<Stage>, plans: seq<StagePlan>, n: nat, draft: Draft)
    requires n <= |stages| && n <= |plans|
  {
    forall i | 0 <= i < n :: stages[i].stageId in draft.nodes && draft.nodes[stages[i].stageId] == plans[i].node
  }

  ghost predicate InputsOwn(draft: Draft) {
    forall id | id in SynthesizedIds(draft.inputs) :: id in draft.nodes && IsText(draft.nodes[id])
  }

  lemma {:induction false} ApartKeepsNodes(stages: seq<Stage>, plans: seq<StagePlan>, n: nat)
    requires StagesOrdered(stages) && n <= |stages| && n <= |plans|
    requires Apart(stages, DraftOf(stages, plans, n))
    ensures StagesOwn(stages, plans, n, DraftOf(stages, plans, n)) && InputsOwn(DraftOf(stages, plans, n))
  {
    if n > 0 {
      var before, after, inputs := DraftOf(stages, plans, n - 1), DraftOf(stages, plans, n), plans[n - 1].inputs;
      SynthesizedIdsAppend(before.inputs, inputs);
      ApartKeepsNodes(stages, plans, n - 1);
      forall i | 0 <= i < n - 1
        ensures stages[i].stageId in after.nodes && after.nodes[stages[i].stageId] == plans[i].node
      {
        AddInputsAt(before.nodes, inputs, stages[i].stageId);
      }
      forall id | id in SynthesizedIds(after.inputs) ensures id in after.nodes && IsText(after.nodes[id]) {
        AddInputsAt(before.nodes, inputs, id);
      }
    }
  }

  // ----- nothing is lost -----

  /** Inputs that share an id share their text. */
  ghost predicate OneValue(inputs: seq<TextInput>) {
    forall t, u | t in inputs && u in inputs && t.id == u.id :: t.value == u.value
  }

  ghost predicate TextsOwn(draft: Draft) {
    forall t | t in draft.inputs :: t.id in draft.nodes && draft.nodes[t.id] == TextNode(t.value)
  }

  lemma {:induction false} TextsAreHeld(stages: seq<Stage>, plans: seq<StagePlan>, n: nat)
    requires n <= |stages| && n <= |plans|
    requires Apart(stages, DraftOf(stages, plans, n)) && OneValue(DraftOf(stages, plans, n).inputs)
    ensures TextsOwn(DraftOf(stages, plans, n))
  {
    if n > 0 {
      var before, after, inputs := DraftOf(stages, plans, n - 1), DraftOf(stages, plans, n), plans[n - 1].inputs;
      SynthesizedIdsAppend(before.inputs, inputs);
      assert forall t :: t in after.inputs <==> t in before.inputs || t in inputs;
      TextsAreHeld(stages, plans, n - 1);
      forall t | t in after.inputs ensures t.id in after.nodes && after.nodes[t.id] == TextNode(t.value) {
        assert t.id in SynthesizedIds(after.inputs);
        AddInputsText(before.nodes, inputs, t.id, t.value);
      }
    }
  }

  /** On the draft: every stage keeps its node and every input its text, exactly when no
      synthesized id is a stage id and inputs that share an id share their text. */
  lemma DraftLosesNothingExactly(env: Env, stages: seq<Stage>, plans: seq<StagePlan>)
    requires StagesOrdered(stages) && |plans| == |stages| && PlansSound(env, stages, plans)
    ensures var draft := DraftOf(stages, plans, |stages|);
      Apart(stages, draft) && OneValue(draft.inputs) <==> StagesOwn(stages, plans, |stages|, draft) && TextsOwn(draft)
  {
    var n := |stages|;
    var draft := DraftOf(stages, plans, n);
    if Apart(stages, draft) && OneValue(draft.inputs) {
      ApartKeepsNodes(stages, plans, n);
      TextsAreHeld(stages, plans, n);
    }
    if StagesOwn(stages, plans, n, draft) && TextsOwn(draft) {
      forall i | 0 <= i < n ensures stages[i].stageId !in SynthesizedIds(draft.inputs) {
        assert PlanSound(env, stages, i, plans[i]);
        OwnedApart(draft, stages[i].stageId);
      }
      forall t, u | t in draft.inputs && u in draft.inputs && t.id == u.id ensures t.value == u.value {
        SameText(t.value, u.value);
      }
    }
  }

  lemma SameText(a: Value, b: Value)
    ensures TextNode(a) == TextNode(b) ==> a == b
  {
    assert map["text" := a]["text"] == a && map["text" := b]["text"] == b;
  }

  lemma OwnedApart(draft: Draft, id: string)
    requires TextsOwn(draft) && id in draft.nodes && draft.nodes[id].semantics.Some?
    ensures id !in SynthesizedIds(draft.inputs)
  {
    assert forall t | t in draft.inputs :: draft.nodes[t.id].semantics == None;
  }

  // ----- the same, seen from the plan -----

  /** No materialized port gets the id of a stage. */
  ghost predicate NoCollision(env: Env, stages: seq<Stage>) {
    forall i, j, port | 0 <= i < |stages| && 0 <= j < |stages| && Materialized(env, stages[i], port) ::
      InputId(stages[i].stageId, port) != stages[j].stageId
  }

  /** Materialized ports of different stages that get one id have one literal. */
  ghost predicate SharedIdsAgree(env: Env, stages: seq<Stage>) {
    forall i, j, a, b | 0 <= i < j < |stages| && Materialized(env, stages[i], a) && Materialized(env, stages[j], b)
                     && InputId(stages[i].stageId, a) == InputId(stages[j].stageId, b) ::
      Literals(env, stages[i])[a] == Literals(env, stages[j])[b]
  }

  /** No materialized port gets the id of a stage or of another stage's input. */
  ghost predicate FreshIds(env: Env, stages: seq<Stage>) {
    && NoCollision(env, stages)
    && (forall i, j, a, b |
          0 <= i < j < |stages| && Materialized(env, stages[i], a) && Materialized(env, stages[j], b) ::
          InputId(stages[i].stageId, a) != InputId(stages[j].stageId, b))
  }

  lemma InputIdInjective(id: string, a: string, b: string)
    requires InputId(id, a) == InputId(id, b)
    ensures a == b
  {
    assert InputId(id, a)[|id| + 1..|id| + 1 + |a|] == a;
    assert |a| == |b|;
    assert InputId(id, b)[|id| + 1..|id| + 1 + |b|] == b;
  }

  lemma SynthesizedOrigin(env: Env, stages: seq<Stage>, plans: seq<StagePlan>, n: nat, t: TextInput)
    requires n <= |plans| == |stages| && PlansSound(env, stages, plans) && t in DraftOf(stages, plans, n).inputs
    ensures exists i | 0 <= i < n :: SynthesizedFor(env, stages, i, t)
  {
    InputOrigin(stages, plans, n, t);
    var i :| 0 <= i < n && t in plans[i].inputs;
    PlanInputs(env, stages, i, plans[i]);
  }

  lemma PlanInputs(env: Env, stages: seq<Stage>, i: nat, plan: StagePlan)
    requires i < |stages| && StageSound(env, stages, i, plan)
    ensures InputsExact(env, stages, i, plan.inputs)
  {
  }

  /** Every materialized port has its input in the draft. */
  lemma MaterializedInDraft(
    env: Env, stages: seq<Stage>, plans: seq<StagePlan>, i: nat, port: string)
    requires i < |plans| == |stages| && PlansSound(env, stages, plans) && Materialized(env, stages[i], port)
    ensures exists t | t in plans[i].inputs ::
      t.port == port && SynthesizedFor(env, stages, i, t) && t in DraftOf(stages, plans, |stages|).inputs
  {
    PlanInputs(env, stages, i, plans[i]);
    PartsInDraft(stages, plans, |stages|, i);
    assert Serves(plans[i].inputs, port);
    var t :| t in plans[i].inputs && t.port == port;
  }

  lemma NoCollisionIsApart(env: Env, stages: seq<Stage>, plans: seq<StagePlan>)
    requires |plans| == |stages| && PlansSound(env, stages, plans)
    ensures NoCollision(env, stages) <==> Apart(stages, DraftOf(stages, plans, |stages|))
  {
    var draft := DraftOf(stages, plans, |stages|);
    if NoCollision(env, stages) {
      forall j, t | 0 <= j < |stages| && t in draft.inputs ensures stages[j].stageId != t.id {
        SynthesizedOrigin(env, stages, plans, |stages|, t);
      }
    }
    if Apart(stages, draft) {
      forall i, j, port | 0 <= i < |stages| && 0 <= j < |stages| && Materialized(env, stages[i], port)
        ensures InputId(stages[i].stageId, port) != stages[j].stageId
      {
        MaterializedInDraft(env, stages, plans, i, port);
        var t :| t in plans[i].inputs && t.port == port && SynthesizedFor(env, stages, i, t) && t in draft.inputs;
        assert t.id in SynthesizedIds(draft.inputs);
      }
    }
  }

  lemma SharedIsOneValue(env: Env, stages: seq<Stage>, plans: seq<StagePlan>)
    requires |plans| == |stages| && PlansSound(env, stages, plans)
    ensures SharedIdsAgree(env, stages) <==> OneValue(DraftOf(stages, plans, |stages|).inputs)
  {
    var draft := DraftOf(stages, plans, |stages|);
    if SharedIdsAgree(env, stages) {
      forall t, u | t in draft.inputs && u in draft.inputs && t.id == u.id ensures t.value == u.value {
        SynthesizedOrigin(env, stages, plans, |stages|, t);
        SynthesizedOrigin(env, stages, plans, |stages|, u);
        var i :| 0 <= i < |stages| && SynthesizedFor(env, stages, i, t);
        var j :| 0 <= j < |stages| && SynthesizedFor(env, stages, j, u);
        SharedValue(env, stages, i, j, t, u);
      }
    }
    if OneValue(draft.inputs) {
      forall i, j, a, b | 0 <= i < j < |stages| && Materialized(env, stages[i], a) && Materialized(env, stages[j], b)
                       && InputId(stages[i].stageId, a) == InputId(stages[j].stageId, b)
        ensures Literals(env, stages[i])[a] == Literals(env, stages[j])[b]
      {
        MaterializedInDraft(env, stages, plans, i, a);
        MaterializedInDraft(env, stages, plans, j, b);
      }
    }
  }

  lemma SharedValue(env: Env, stages: seq<Stage>, i: nat, j: nat, t: TextInput, u: TextInput)
    requires SharedIdsAgree(env, stages) && SynthesizedFor(env, stages, i, t) && SynthesizedFor(env, stages, j, u)
    requires t.id == u.id
    ensures t.value == u.value
  {
    if i == j {
      InputIdInjective(stages[i].stageId, t.port, u.port);
    }
  }

  /** Every stage keeps the node compiled for it and every synthesized input its text, exactly
      when the plan's materialized ports get no stage's id and share ids only with their text. */
  lemma NothingLostExactly(env: Env, stages: seq<Stage>, plans: seq<StagePlan>)
    requires StagesOrdered(stages) && |plans| == |stages| && PlansSound(env, stages, plans)
    ensures var draft := DraftOf(stages, plans, |stages|);
      NoCollision(env, stages) && SharedIdsAgree(env, stages)
      <==> StagesOwn(stages, plans, |stages|, draft) && TextsOwn(draft)
  {
    NoCollisionIsApart(env, stages, plans);
    SharedIsOneValue(env, stages, plans);
    DraftLosesNothingExactly(env, stages, plans);
  }

  // ----- distinct ids -----

  /** No two text inputs share an id. */
  predicate Distinct(inputs: seq<TextInput>) {
    forall a, b | 0 <= a < b < |inputs| :: inputs[a].id != inputs[b].id
  }

  ghost predicate DistinctAcross(plans: seq<StagePlan>, n: nat)
    requires n <= |plans|
  {
    forall i, j, t, u | 0 <= i < j < n && t in plans[i].inputs && u in plans[j].inputs :: t.id != u.id
  }

  ghost predicate DistinctEach(plans: seq<StagePlan>) { forall plan | plan in plans :: Distinct(plan.inputs) }

  ghost predicate NoneShared(a: seq<TextInput>, b: seq<TextInput>) {
    forall t, u | t in a && u in b :: t.id != u.id
  }

  /** Inputs that are distinct within each stage and across any two are distinct ... */
  lemma {:induction false} DistinctDraft(stages: seq<Stage>, plans: seq<StagePlan>, n: nat)
    requires n <= |plans| == |stages| && DistinctEach(plans) && DistinctAcross(plans, n)
    ensures Distinct(DraftOf(stages, plans, n).inputs)
  {
    if n > 0 {
      assert plans[n - 1] in plans;
      AcrossOneMore(stages, plans, n);
      DistinctDraft(stages, plans, n - 1);
      DistinctJoin(DraftOf(stages, plans, n - 1).inputs, plans[n - 1].inputs);
    }
  }

  /** ... and conversely. */
  lemma {:induction false} DistinctIsAcross(stages: seq<Stage>, plans: seq<StagePlan>, n: nat)
    requires n <= |plans| == |stages| && Distinct(DraftOf(stages, plans, n).inputs)
    ensures DistinctAcross(plans, n)
  {
    if n > 0 {
      DistinctParts(DraftOf(stages, plans, n - 1).inputs, plans[n - 1].inputs);
      DistinctIsAcross(stages, plans, n - 1);
      AcrossOneMore(stages, plans, n);
    }
  }

  lemma AcrossOneMore(stages: seq<Stage>, plans: seq<StagePlan>, n: nat)
    requires 0 < n <= |plans| == |stages|
    ensures DistinctAcross(plans, n)
      <==> DistinctAcross(plans, n - 1) && NoneShared(DraftOf(stages, plans, n - 1).inputs, plans[n - 1].inputs)
  {
    var before := DraftOf(stages, plans, n - 1).inputs;
    if DistinctAcross(plans, n) {
      forall t, u | t in before && u in plans[n - 1].inputs ensures t.id != u.id {
        InputOrigin(stages, plans, n - 1, t);
      }
    }
    forall i, t | 0 <= i < n - 1 && t in plans[i].inputs ensures t in before {
      PartsInDraft(stages, plans, n - 1, i);
    }
  }

  lemma DistinctJoin(a: seq<TextInput>, b: seq<TextInput>)
    requires Distinct(a) && Distinct(b) && NoneShared(a, b)
    ensures Distinct(a + b)
  {
    var all := a + b;
    forall i, j | 0 <= i < j < |all| ensures all[i].id != all[j].id {
      assert all[i] == if i < |a| then a[i] else b[i - |a|];
      assert all[j] == if j < |a| then a[j] else b[j - |a|];
    }
  }

  lemma DistinctParts(a: seq<TextInput>, b: seq<TextInput>)
    requires Distinct(a + b)
    ensures Distinct(a) && NoneShared(a, b)
  {
    var all := a + b;
    assert forall i | 0 <= i < |a| :: all[i] == a[i];
    assert forall i | 0 <= i < |b| :: all[|a| + i] == b[i];
    forall t, u | t in a && u in b ensures t.id != u.id {
      var i :| 0 <= i < |a| && a[i] == t;
      var j :| 0 <= j < |b| && b[j] == u;
      assert all[i].id != all[|a| + j].id;
    }
  }

  lemma DistinctWithin(env: Env, stages: seq<Stage>, i: nat, inputs: seq<TextInput>)
    requires i < |stages| && InputsExact(env, stages, i, inputs)
    ensures Distinct(inputs)
  {
    forall a, b | 0 <= a < b < |inputs| ensures inputs[a].id != inputs[b].id {
      assert inputs[a] in inputs && inputs[b] in inputs;
      if inputs[a].id == inputs[b].id {
        InputIdInjective(stages[i].stageId, inputs[a].port, inputs[b].port);
      }
    }
  }

  /** The plan's ids are fresh exactly when, in the draft, synthesized ids are no stage ids and
      no two inputs share one. */
  lemma FreshExactly(env: Env, stages: seq<Stage>, plans: seq<StagePlan>)
    requires |plans| == |stages| && PlansSound(env, stages, plans)
    ensures var draft := DraftOf(stages, plans, |stages|);
      FreshIds(env, stages) <==> Apart(stages, draft) && Distinct(draft.inputs)
  {
    forall plan | plan in plans ensures Distinct(plan.inputs) {
      var i :| 0 <= i < |plans| && plans[i] == plan;
      PlanInputs(env, stages, i, plan);
      DistinctWithin(env, stages, i, plan.inputs);
    }
    NoCollisionIsApart(env, stages, plans);
    if DistinctAcross(plans, |stages|) {
      DistinctDraft(stages, plans, |stages|);
    }
    if Distinct(DraftOf(stages, plans, |stages|).inputs) {
      DistinctIsAcross(stages, plans, |stages|);
    }
    FreshAcross(env, stages, plans);
  }

  lemma FreshAcross(env: Env, stages: seq<Stage>, plans: seq<StagePlan>)
    requires |plans| == |stages| && PlansSound(env, stages, plans)
    ensures FreshIds(env, stages) <==> NoCollision(env, stages) && DistinctAcross(plans, |plans|)
  {
    if FreshIds(env, stages) {
      forall i, j, t, u | 0 <= i < j < |plans| && t in plans[i].inputs && u in plans[j].inputs ensures t.id != u.id {
        PlanInputs(env, stages, i, plans[i]);
        PlanInputs(env, stages, j, plans[j]);
        FreshIdsDiffer(env, stages, i, j, t, u);
      }
    }
    if NoCollision(env, stages) && DistinctAcross(plans, |plans|) {
      forall i, j, a, b | 0 <= i < j < |stages| && Materialized(env, stages[i], a) && Materialized(env, stages[j], b)
        ensures InputId(stages[i].stageId, a) != InputId(stages[j].stageId, b)
      {
        MaterializedInDraft(env, stages, plans, i, a);
        MaterializedInDraft(env, stages, plans, j, b);
      }
    }
  }

  lemma FreshIdsDiffer(env: Env, stages: seq<Stage>, i: nat, j: nat, t: TextInput, u: TextInput)
    requires i < j && FreshIds(env, stages) && SynthesizedFor(env, stages, i, t) && SynthesizedFor(env, stages, j, u)
    ensures t.id != u.id
  {
  }
}
