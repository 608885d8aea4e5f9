/** What every graph assembled by the builder satisfies. */
module BuiltGraph {
  import opened Ordering
  import opened Graph
  import opened Topology
  import opened Convergence
  import opened Intent
  import opened Layout
  import opened GraphBuilder
  import opened StagePlans

  // ----- the assembled graph -----

  lemma {:induction false} PlaceInputsMeaning(nodes: map<string, GraphNode>, inputs: seq<TextInput>)
    ensures PlaceInputs(nodes, inputs).Keys == nodes.Keys
    ensures forall id | id in nodes && id !in SynthesizedIds(inputs) :: PlaceInputs(nodes, inputs)[id] == nodes[id]
    ensures forall id | id in nodes :: PlaceInputs(nodes, inputs)[id].(pos := nodes[id].pos) == nodes[id]
    decreases |inputs|
  {
    if inputs != [] {
      PlaceInputsMeaning(Moved(nodes, inputs[0].id, LeftOf(nodes, inputs[0].consumer)), inputs[1..]);
      assert forall t :: t in inputs <==> t == inputs[0] || t in inputs[1..];
    }
  }

  lemma {:induction false} PlaceInputsAt(nodes: map<string, GraphNode>, inputs: seq<TextInput>, k: nat)
    requires Distinct(inputs) && k < |inputs| && inputs[k].id in nodes
    requires forall t | t in inputs :: t.consumer in nodes && t.consumer !in SynthesizedIds(inputs)
    ensures inputs[k].id in PlaceInputs(nodes, inputs)
    ensures PlaceInputs(nodes, inputs)[inputs[k].id].pos
         == Point(nodes[inputs[k].consumer].pos.x - COLUMN_WIDTH, nodes[inputs[k].consumer].pos.y)
    decreases |inputs|
  {
    var first, rest := inputs[0], inputs[1..];
    SynthesizedIdsSplit(inputs);
    assert inputs[k] in inputs && first in inputs;
    var next := Moved(nodes, first.id, LeftOf(nodes, first.consumer));
    assert inputs[k].consumer != first.id;
    assert next.Keys == nodes.Keys;
    if k > 0 {
      PlaceInputsAt(next, rest, k - 1);
    } else {
      PlaceInputsMeaning(next, rest);
    }
  }

  lemma SynthesizedIdsSplit(inputs: seq<TextInput>)
    requires inputs != []
    ensures SynthesizedIds(inputs) == {inputs[0].id} + SynthesizedIds(inputs[1..])
    ensures forall t | t in inputs[1..] :: t in inputs
    ensures Distinct(inputs) ==> inputs[0].id !in SynthesizedIds(inputs[1..]) && Distinct(inputs[1..])
  {
    assert forall t :: t in inputs <==> t == inputs[0] || t in inputs[1..];
    if Distinct(inputs) {
      forall t | t in inputs[1..] ensures t.id != inputs[0].id {
        var j :| 1 <= j < |inputs| && inputs[j] == t;
      }
    }
  }

  /** Nodes of the assembled graph are those of the draft, moved. */
  lemma AssembledNodes(env: Env, p: IntentPlan, draft: Draft)
    requires StagesOrdered(p.stages)
    ensures var g := Assemble(env, p, draft);
      && g.nodes.Keys == draft.nodes.Keys
      && (forall id | id in draft.nodes :: g.nodes[id].(pos := draft.nodes[id].pos) == draft.nodes[id])
      && (Apart(p.stages, draft) ==> forall i | 0 <= i < |p.stages| && p.stages[i].stageId in draft.nodes ::
            g.nodes[p.stages[i].stageId].pos == StagePos(p, i))
  {
    LaidOutMeaning(p, draft.nodes, |p.stages|);
    var laidOut := LaidOut(p, draft.nodes, |p.stages|);
    PlaceInputsMeaning(laidOut, draft.inputs);
    forall id | id in draft.nodes ensures laidOut[id].(pos := draft.nodes[id].pos) == draft.nodes[id] {
      if i :| 0 <= i < |p.stages| && p.stages[i].stageId == id { }
    }
  }

  /** The registry knows text inputs: the port the builder wires is a text output, and
      nothing has to be connected to them. */
  ghost predicate TextInputsRegistered(env: Env) {
    && "input.text" in env.definitions
    && var definition := env.definitions["input.text"];
       && PortNamed(definition.outputs, "text").Some? && PortNamed(definition.outputs, "text").value.portType == Text
       && forall port | port in definition.inputs :: !port.required
  }

  ghost predicate PortsMatch(env: Env, g: WorkflowGraph, e: GraphEdge)
    requires e.from.node in g.nodes && e.to.node in g.nodes
  {
    var source, target := g.nodes[e.from.node].nodeType, g.nodes[e.to.node].nodeType;
    source in env.definitions && target in env.definitions
    && JoinsEqualTypes(env.definitions[source], env.definitions[target], e)
  }

  /** The stage's own node has its type, its required inputs and its required params. */
  ghost predicate StageComplete(env: Env, g: WorkflowGraph, stage: Stage) {
    && stage.stageId in g.nodes && StageDefinition(env, stage).Ok?
    && var node, definition := g.nodes[stage.stageId], StageDefinition(env, stage).value;
    && node.nodeType == env.nodeTypes[stage.capabilityId] && node.params.Obj? && node.semantics.Some?
    && (forall port | port in definition.inputs && port.required ::
          Wired(g.edges, stage.stageId, port.name) || NonNull(node.params.fields, port.name))
    && (forall k | k in definition.requiredParams :: k in node.params.fields)
  }

  // ----- plans that add up to a draft -----

  ghost predicate Compiled(env: Env, p: IntentPlan, plans: seq<StagePlan>) {
    StagesOrdered(p.stages) && |plans| == |p.stages| && PlansSound(env, p.stages, plans)
  }

  function WholeDraft(p: IntentPlan, plans: seq<StagePlan>): Draft
    requires |plans| == |p.stages|
  {
    DraftOf(p.stages, plans, |p.stages|)
  }

  function Assembled(env: Env, p: IntentPlan, plans: seq<StagePlan>): WorkflowGraph
    requires |plans| == |p.stages|
  {
    Assemble(env, p, WholeDraft(p, plans))
  }

  /** A stage edge or a text input's edge, seen from the draft. */
  lemma EdgeKinds(env: Env, p: IntentPlan, plans: seq<StagePlan>, e: GraphEdge)
    returns (i: nat, text: Option<TextInput>)
    requires Compiled(env, p, plans) && e in WholeDraft(p, plans).edges
    ensures i < |p.stages| && e.to.node == p.stages[i].stageId
    ensures text == None ==> StageEdge(env, p.stages, i, e)
    ensures text.Some? ==>
      && e == EdgeOf(text.value) && text.value in WholeDraft(p, plans).inputs
      && SynthesizedFor(env, p.stages, i, text.value)
  {
    EdgeOrigin(p.stages, plans, |p.stages|, e);
    i :| 0 <= i < |p.stages| && e in plans[i].edges;
    assert PlanSound(env, p.stages, i, plans[i]);
    PlanInputs(env, p.stages, i, plans[i]);
    PartsInDraft(p.stages, plans, |p.stages|, i);
    if StageEdge(env, p.stages, i, e) {
      text := None;
    } else {
      var t :| t in plans[i].inputs && e == EdgeOf(t);
      text := Some(t);
    }
  }

  lemma AssembledIsClosed(env: Env, p: IntentPlan, plans: seq<StagePlan>)
    requires Compiled(env, p, plans)
    ensures EdgeClosed(Assembled(env, p, plans))
  {
    var n := |p.stages|;
    var draft := WholeDraft(p, plans);
    AssembledNodes(env, p, draft);
    DraftKeys(p.stages, plans, n);
    forall e | e in draft.edges ensures e.from.node in draft.nodes && e.to.node in draft.nodes {
      var i, text := EdgeKinds(env, p, plans, e);
      if text == None {
        var j :| 0 <= j < n && e.from.node == p.stages[j].stageId && Consumes(p.stages, i, j);
        assert p.stages[j].stageId in StageIds(p.stages, n);
      } else {
        assert text.value.id in SynthesizedIds(draft.inputs);
      }
      assert p.stages[i].stageId in StageIds(p.stages, n);
    }
  }

  // ----- acyclic: synthesized inputs come first, stages by their depth -----

  function Rank(p: IntentPlan, g: WorkflowGraph, id: string): int
    requires id in g.nodes
  {
    if id in StageIds(p.stages, |p.stages|) then g.nodes[id].pos.x + 1 else 0
  }

  lemma RankGrows(env: Env, p: IntentPlan, plans: seq<StagePlan>, e: GraphEdge)
    requires Compiled(env, p, plans) && Apart(p.stages, WholeDraft(p, plans)) && e in WholeDraft(p, plans).edges
    ensures var g := Assembled(env, p, plans);
      && e.from.node in g.nodes && e.to.node in g.nodes
      && Rank(p, g, e.from.node) < Rank(p, g, e.to.node)
  {
    AssembledIsClosed(env, p, plans);
    AssembledNodes(env, p, WholeDraft(p, plans));
    var i, text := EdgeKinds(env, p, plans, e);
    assert p.stages[i].stageId in StageIds(p.stages, |p.stages|);
    if text == None {
      var j :| 0 <= j < |p.stages| && e.from.node == p.stages[j].stageId && Consumes(p.stages, i, j);
      assert p.stages[j].stageId in StageIds(p.stages, |p.stages|);
      ConsumedIsLeft(p.stages, i, j);
    } else {
      assert text.value.id in SynthesizedIds(WholeDraft(p, plans).inputs);
    }
  }

  lemma AssembledIsAcyclic(env: Env, p: IntentPlan, plans: seq<StagePlan>)
    requires Compiled(env, p, plans) && Apart(p.stages, WholeDraft(p, plans))
    ensures exists order :: IsOrder(Assembled(env, p, plans), order)
  {
    var g := Assembled(env, p, plans);
    AssembledIsClosed(env, p, plans);
    var rank := map id | id in g.nodes :: Rank(p, g, id);
    forall e | e in g.edges ensures rank[e.from.node] < rank[e.to.node] {
      RankGrows(env, p, plans, e);
    }
    var order := RankGivesOrder(g, rank);
  }

  // ----- left to right -----

  /** Every edge goes strictly left to right. */
  lemma AssembledGoesRight(env: Env, p: IntentPlan, plans: seq<StagePlan>, e: GraphEdge)
    requires Compiled(env, p, plans) && e in WholeDraft(p, plans).edges
    requires Apart(p.stages, WholeDraft(p, plans)) && Distinct(WholeDraft(p, plans).inputs)
    ensures var g := Assembled(env, p, plans);
      && e.from.node in g.nodes && e.to.node in g.nodes
      && g.nodes[e.from.node].pos.x < g.nodes[e.to.node].pos.x
  {
    AssembledIsClosed(env, p, plans);
    var i, text := EdgeKinds(env, p, plans, e);
    if text == None {
      var j :| 0 <= j < |p.stages| && e.from.node == p.stages[j].stageId && Consumes(p.stages, i, j);
      StageIsRight(env, p, plans, i, j);
    } else {
      TextIsLeft(env, p, plans, text.value);
    }
  }

  lemma StageIsRight(env: Env, p: IntentPlan, plans: seq<StagePlan>, i: nat, j: nat)
    requires Compiled(env, p, plans) && Apart(p.stages, WholeDraft(p, plans))
    requires i < |p.stages| && j < |p.stages| && Consumes(p.stages, i, j)
    ensures var g := Assembled(env, p, plans);
      && p.stages[i].stageId in g.nodes && p.stages[j].stageId in g.nodes
      && g.nodes[p.stages[j].stageId].pos.x < g.nodes[p.stages[i].stageId].pos.x
  {
    AssembledNodes(env, p, WholeDraft(p, plans));
    DraftKeys(p.stages, plans, |p.stages|);
    ConsumedIsLeft(p.stages, i, j);
    assert p.stages[i].stageId in StageIds(p.stages, |p.stages|)
      && p.stages[j].stageId in StageIds(p.stages, |p.stages|);
  }

  lemma TextIsLeft(env: Env, p: IntentPlan, plans: seq<StagePlan>, t: TextInput)
    requires Compiled(env, p, plans) && t in WholeDraft(p, plans).inputs
    requires Apart(p.stages, WholeDraft(p, plans)) && Distinct(WholeDraft(p, plans).inputs)
    ensures var g := Assembled(env, p, plans);
      && t.id in g.nodes && t.consumer in g.nodes
      && g.nodes[t.id].pos == Point(g.nodes[t.consumer].pos.x - COLUMN_WIDTH, g.nodes[t.consumer].pos.y)
  {
    var draft := WholeDraft(p, plans);
    var laidOut := LaidOut(p, draft.nodes, |p.stages|);
    assert laidOut.Keys == draft.nodes.Keys by { LaidOutMeaning(p, draft.nodes, |p.stages|); }
    ConsumersApart(env, p, plans);
    PlacedLeft(laidOut, draft.inputs, t);
  }

  lemma ConsumersApart(env: Env, p: IntentPlan, plans: seq<StagePlan>)
    requires Compiled(env, p, plans) && Apart(p.stages, WholeDraft(p, plans))
    ensures var draft := WholeDraft(p, plans);
      && SynthesizedIds(draft.inputs) <= draft.nodes.Keys
      && forall u | u in draft.inputs :: u.consumer in draft.nodes && u.consumer !in SynthesizedIds(draft.inputs)
  {
    DraftKeys(p.stages, plans, |p.stages|);
    forall u | u in WholeDraft(p, plans).inputs
      ensures exists i | 0 <= i < |p.stages| :: p.stages[i].stageId == u.consumer
    {
      SynthesizedOrigin(env, p.stages, plans, |p.stages|, u);
    }
    assert forall i | 0 <= i < |p.stages| :: p.stages[i].stageId in StageIds(p.stages, |p.stages|);
  }

  lemma PlacedLeft(nodes: map<string, GraphNode>, inputs: seq<TextInput>, t: TextInput)
    requires Distinct(inputs) && t in inputs && SynthesizedIds(inputs) <= nodes.Keys
    requires forall u | u in inputs :: u.consumer in nodes && u.consumer !in SynthesizedIds(inputs)
    ensures var placed := PlaceInputs(nodes, inputs);
      && t.id in placed && t.consumer in placed
      && placed[t.id].pos == Point(placed[t.consumer].pos.x - COLUMN_WIDTH, placed[t.consumer].pos.y)
  {
    var k :| 0 <= k < |inputs| && inputs[k] == t;
    assert t.id in SynthesizedIds(inputs);
    PlaceInputsAt(nodes, inputs, k);
    PlaceInputsMeaning(nodes, inputs);
  }

  // ----- layout hints -----

  lemma {:induction false} TextHintsAt(nodes: map<string, GraphNode>, inputs: seq<TextInput>, k: nat)
    requires k < |inputs| && forall t | t in inputs :: t.consumer in nodes && t.consumer !in SynthesizedIds(inputs)
    ensures TextHints(nodes, inputs)[k] == LayoutHint(inputs[k].id, LeftOf(nodes, inputs[k].consumer))
    decreases |inputs|
  {
    var next := Moved(nodes, inputs[0].id, LeftOf(nodes, inputs[0].consumer));
    SynthesizedIdsSplit(inputs);
    assert inputs[k] in inputs && inputs[0] in inputs;
    if k > 0 {
      TextHintsAt(next, inputs[1..], k - 1);
    }
  }

  lemma TextHintsArePositions(env: Env, p: IntentPlan, plans: seq<StagePlan>, k: nat)
    requires Compiled(env, p, plans) && k < |WholeDraft(p, plans).inputs|
    requires Apart(p.stages, WholeDraft(p, plans)) && Distinct(WholeDraft(p, plans).inputs)
    ensures var draft, g := WholeDraft(p, plans), Assembled(env, p, plans);
      var hints := TextHints(LaidOut(p, draft.nodes, |p.stages|), draft.inputs);
      hints[k].nodeId in g.nodes && hints[k].pos == g.nodes[hints[k].nodeId].pos
  {
    var draft := WholeDraft(p, plans);
    var laidOut := LaidOut(p, draft.nodes, |p.stages|);
    assert laidOut.Keys == draft.nodes.Keys by { LaidOutMeaning(p, draft.nodes, |p.stages|); }
    ConsumersApart(env, p, plans);
    assert draft.inputs[k] in draft.inputs && draft.inputs[k].id in SynthesizedIds(draft.inputs);
    TextHintsAt(laidOut, draft.inputs, k);
    PlaceInputsAt(laidOut, draft.inputs, k);
  }

  lemma StageHintsArePositions(env: Env, p: IntentPlan, plans: seq<StagePlan>, i: nat)
    requires Compiled(env, p, plans) && i < |p.stages| && Apart(p.stages, WholeDraft(p, plans))
    ensures var g := Assembled(env, p, plans);
      p.stages[i].stageId in g.nodes && g.nodes[p.stages[i].stageId].pos == StagePos(p, i)
  {
    AssembledNodes(env, p, WholeDraft(p, plans));
    DraftKeys(p.stages, plans, |p.stages|);
    assert p.stages[i].stageId in StageIds(p.stages, |p.stages|);
  }

  // ----- ports -----

  /** A stage's node has the type of its capability. */
  lemma StageNodeType(env: Env, p: IntentPlan, plans: seq<StagePlan>, i: nat)
    requires Compiled(env, p, plans) && i < |p.stages|
    requires StagesOwn(p.stages, plans, |p.stages|, WholeDraft(p, plans))
    ensures var g := Assembled(env, p, plans);
      && StageDefinition(env, p.stages[i]).Ok? && p.stages[i].stageId in g.nodes
      && g.nodes[p.stages[i].stageId].(pos := plans[i].node.pos) == plans[i].node
      && g.nodes[p.stages[i].stageId].nodeType == env.nodeTypes[p.stages[i].capabilityId]
      && g.nodes[p.stages[i].stageId].nodeType in env.definitions
      && env.definitions[g.nodes[p.stages[i].stageId].nodeType] == StageDefinition(env, p.stages[i]).value
  {
    AssembledNodes(env, p, WholeDraft(p, plans));
    assert PlanSound(env, p.stages, i, plans[i]);
  }

  lemma TextNodeType(env: Env, p: IntentPlan, plans: seq<StagePlan>, id: string)
    requires Compiled(env, p, plans) && Apart(p.stages, WholeDraft(p, plans))
    requires id in SynthesizedIds(WholeDraft(p, plans).inputs)
    ensures var g := Assembled(env, p, plans);
      id in g.nodes && g.nodes[id].nodeType == "input.text" && g.nodes[id].semantics == None && g.nodes[id].size == None
  {
    ApartKeepsNodes(p.stages, plans, |p.stages|);
    AssembledNodes(env, p, WholeDraft(p, plans));
  }

  lemma AssembledPortsMatch(env: Env, p: IntentPlan, plans: seq<StagePlan>, e: GraphEdge)
    requires Compiled(env, p, plans) && Apart(p.stages, WholeDraft(p, plans)) && TextInputsRegistered(env)
    requires e in WholeDraft(p, plans).edges
    ensures var g := Assembled(env, p, plans);
      e.from.node in g.nodes && e.to.node in g.nodes && PortsMatch(env, g, e)
  {
    var i, text := EdgeKinds(env, p, plans, e);
    ApartKeepsNodes(p.stages, plans, |p.stages|);
    StageNodeType(env, p, plans, i);
    if text == None {
      var j :| 0 <= j < |p.stages| && e.from.node == p.stages[j].stageId && Consumes(p.stages, i, j)
        && StageDefinition(env, p.stages[j]).Ok?
        && JoinsEqualTypes(StageDefinition(env, p.stages[j]).value, StageDefinition(env, p.stages[i]).value, e);
      StageNodeType(env, p, plans, j);
    } else {
      assert text.value.id in SynthesizedIds(WholeDraft(p, plans).inputs);
      TextNodeType(env, p, plans, text.value.id);
    }
  }

  lemma AssembledStagesComplete(env: Env, p: IntentPlan, plans: seq<StagePlan>, i: nat)
    requires Compiled(env, p, plans) && i < |p.stages|
    requires StagesOwn(p.stages, plans, |p.stages|, WholeDraft(p, plans))
    ensures StageComplete(env, Assembled(env, p, plans), p.stages[i])
  {
    var g := Assembled(env, p, plans);
    StageNodeType(env, p, plans, i);
    PartsInDraft(p.stages, plans, |p.stages|, i);
    var id := p.stages[i].stageId;
    assert PlanSound(env, p.stages, i, plans[i]);
    forall port | Wired(plans[i].edges, id, port) ensures Wired(g.edges, id, port) {
      var e :| e in plans[i].edges && e.to == Port(id, port);
      assert e in g.edges;
    }
  }

  // ----- the theorems about `build` -----

  /** Closed, acyclic, joining ports of one type, with no stage incomplete. */
  ghost predicate GraphSound(env: Env, p: IntentPlan, g: WorkflowGraph) {
    && EdgeClosed(g)
    && (exists order :: IsOrder(g, order))
    && (TextInputsRegistered(env) ==> forall e | e in g.edges :: PortsMatch(env, g, e))
    && (forall i | 0 <= i < |p.stages| :: StageComplete(env, g, p.stages[i]))
  }

  ghost predicate GoesRight(g: WorkflowGraph)
    requires EdgeClosed(g)
  {
    forall e | e in g.edges :: g.nodes[e.from.node].pos.x < g.nodes[e.to.node].pos.x
  }

  lemma PlansOfDraft(env: Env, p: IntentPlan) returns (plans: seq<StagePlan>)
    requires ResolverSound(env) && StagesOrdered(p.stages) && Drafted(env, p.stages, |p.stages|).Ok?
    ensures Compiled(env, p, plans) && WholeDraft(p, plans) == Drafted(env, p.stages, |p.stages|).value
    ensures AllBuilt(env, p.stages, plans)
  {
    DraftsStep(env, p.stages);
    plans := PlansOf(env, p.stages, Drafts(env, p.stages), |p.stages|);
  }

  lemma PlansAreSound(env: Env, p: IntentPlan, plans: seq<StagePlan>)
    requires Compiled(env, p, plans) && Apart(p.stages, WholeDraft(p, plans))
    ensures GraphSound(env, p, Assembled(env, p, plans))
  {
    AssembledIsClosed(env, p, plans);
    AssembledIsAcyclic(env, p, plans);
    ApartKeepsNodes(p.stages, plans, |p.stages|);
    forall i | 0 <= i < |p.stages| { AssembledStagesComplete(env, p, plans, i); }
    if TextInputsRegistered(env) {
      forall e | e in Assembled(env, p, plans).edges ensures PortsMatch(env, Assembled(env, p, plans), e) {
        AssembledPortsMatch(env, p, plans, e);
      }
    }
  }

  /** If no materialized port gets the id of a stage, every assembled graph is closed and
      acyclic, joins only ports of one type and leaves no stage incomplete. */
  lemma AssembledIsSound(env: Env, p: IntentPlan)
    requires ResolverSound(env) && StagesOrdered(p.stages) && NoCollision(env, p.stages)
    requires Drafted(env, p.stages, |p.stages|).Ok?
    ensures GraphSound(env, p, Assemble(env, p, Drafted(env, p.stages, |p.stages|).value))
  {
    var plans := PlansOfDraft(env, p);
    NoCollisionIsApart(env, p.stages, plans);
    PlansAreSound(env, p, plans);
  }

  /** If moreover no two materialized ports share an id, all its edges go left to right. */
  lemma FreshGoesRight(env: Env, p: IntentPlan)
    requires ResolverSound(env) && StagesOrdered(p.stages) && FreshIds(env, p.stages)
    requires Drafted(env, p.stages, |p.stages|).Ok?
    ensures var g := Assemble(env, p, Drafted(env, p.stages, |p.stages|).value);
      EdgeClosed(g) && GoesRight(g)
  {
    var plans := PlansOfDraft(env, p);
    FreshExactly(env, p.stages, plans);
    AssembledIsClosed(env, p, plans);
    forall e | e in Assembled(env, p, plans).edges { AssembledGoesRight(env, p, plans, e); }
  }

  predicate SameButMoved(a: GraphNode, b: GraphNode) { a.(pos := b.pos) == b }

  /** Every stage's compiled node and every synthesized text is in the graph, moved. */
  ghost predicate HoldsPlans(p: IntentPlan, plans: seq<StagePlan>, g: WorkflowGraph)
    requires |plans| == |p.stages|
  {
    && (forall i | 0 <= i < |p.stages| ::
          p.stages[i].stageId in g.nodes && SameButMoved(g.nodes[p.stages[i].stageId], plans[i].node))
    && (forall t | t in WholeDraft(p, plans).inputs ::
          t.id in g.nodes && SameButMoved(g.nodes[t.id], TextNode(t.value)))
  }

  lemma OwnedIsHeld(env: Env, p: IntentPlan, plans: seq<StagePlan>)
    requires Compiled(env, p, plans)
    requires StagesOwn(p.stages, plans, |p.stages|, WholeDraft(p, plans)) && TextsOwn(WholeDraft(p, plans))
    ensures HoldsPlans(p, plans, Assembled(env, p, plans))
  {
    AssembledNodes(env, p, WholeDraft(p, plans));
  }

  lemma HeldIsApart(env: Env, p: IntentPlan, plans: seq<StagePlan>, g: WorkflowGraph)
    requires Compiled(env, p, plans) && HoldsPlans(p, plans, g)
    ensures Apart(p.stages, WholeDraft(p, plans)) && OneValue(WholeDraft(p, plans).inputs)
  {
    var inputs := WholeDraft(p, plans).inputs;
    forall i, t | 0 <= i < |p.stages| && t in inputs ensures p.stages[i].stageId != t.id {
      assert PlanSound(env, p.stages, i, plans[i]);
      assert g.nodes[t.id].semantics == None;
    }
    forall t, u | t in inputs && u in inputs && t.id == u.id ensures t.value == u.value {
      assert TextNode(t.value).params == TextNode(u.value).params;
      SameText(t.value, u.value);
    }
  }

  /** With fresh ids every layout hint says where its node ended up. */
  lemma HintsArePositions(env: Env, p: IntentPlan, hint: LayoutHint)
    requires ResolverSound(env) && StagesOrdered(p.stages) && FreshIds(env, p.stages)
    requires Drafted(env, p.stages, |p.stages|).Ok?
    requires hint in AllHints(p, Drafted(env, p.stages, |p.stages|).value)
    ensures var g := Assemble(env, p, Drafted(env, p.stages, |p.stages|).value);
      hint.nodeId in g.nodes && hint.pos == g.nodes[hint.nodeId].pos
  {
    var plans := PlansOfDraft(env, p);
    FreshExactly(env, p.stages, plans);
    var hints := TextHints(LaidOut(p, WholeDraft(p, plans).nodes, |p.stages|), WholeDraft(p, plans).inputs);
    if hint in StageHints(p) {
      var i :| 0 <= i < |p.stages| && StageHints(p)[i] == hint;
      StageHintsArePositions(env, p, plans, i);
    } else {
      var k :| 0 <= k < |hints| && hints[k] == hint;
      TextHintsArePositions(env, p, plans, k);
    }
  }

  /** The assembled graph holds every stage's compiled node and every synthesized text exactly
      when the plan's materialized ports get no stage's id and share ids only with their text. */
  lemma BuildLosesNothingExactly(env: Env, p: IntentPlan) returns (plans: seq<StagePlan>)
    requires ResolverSound(env) && StagesOrdered(p.stages) && Drafted(env, p.stages, |p.stages|).Ok?
    ensures Compiled(env, p, plans) && WholeDraft(p, plans) == Drafted(env, p.stages, |p.stages|).value
    ensures NoCollision(env, p.stages) && SharedIdsAgree(env, p.stages)
      <==> HoldsPlans(p, plans, Assemble(env, p, Drafted(env, p.stages, |p.stages|).value))
  {
    plans := PlansOfDraft(env, p);
    NoCollisionIsApart(env, p.stages, plans);
    SharedIsOneValue(env, p.stages, plans);
    if HoldsPlans(p, plans, Assembled(env, p, plans)) {
      HeldIsApart(env, p, plans, Assembled(env, p, plans));
    }
    if NoCollision(env, p.stages) && SharedIdsAgree(env, p.stages) {
      NothingLostExactly(env, p.stages, plans);
      OwnedIsHeld(env, p, plans);
    }
  }
}
