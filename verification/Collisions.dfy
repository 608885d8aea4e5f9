/** What an assembled graph is worth when a synthesized id is the id of a stage: exactly when
    it is sound after all. */
module Collisions {
  import opened Ordering
  import opened Graph
  import opened Topology
  import opened Convergence
  import opened Intent
  import opened Layout
  import opened GraphBuilder
  import opened StagePlans
  import opened BuiltGraph

  /** The input of a materialized port of stage `i` gets the id of stage `j`. */
  ghost predicate Takes(env: Env, stages: seq<Stage>, i: nat, port: string, j: nat) {
    && i < |stages| && j < |stages|
    && Materialized(env, stages[i], port) && InputId(stages[i].stageId, port) == stages[j].stageId
  }

  /** Only stages that come later are taken for an input: an earlier one would be lost. */
  ghost predicate OnlyLaterTaken(env: Env, stages: seq<Stage>) {
    forall i: nat, j: nat, port: string | Takes(env, stages, i, port, j) :: i < j
  }

  predicate GivesText(env: Env, stage: Stage) {
    && StageDefinition(env, stage).Ok?
    && PortNamed(StageDefinition(env, stage).value.outputs, "text").Some?
    && PortNamed(StageDefinition(env, stage).value.outputs, "text").value.portType == Text
  }

  ghost predicate TakenGiveText(env: Env, stages: seq<Stage>) {
    forall i: nat, j: nat, port: string | Takes(env, stages, i, port, j) :: GivesText(env, stages[j])
  }

  /** A stage ranks above those it consumes and those taken for its inputs. */
  ghost predicate Ranked(env: Env, stages: seq<Stage>, rank: seq<nat>) {
    && |rank| == |stages|
    && (forall i, j | 0 <= i < |stages| && 0 <= j < |stages| && Consumes(stages, i, j) :: rank[j] < rank[i])
    && (forall i: nat, j: nat, port: string | Takes(env, stages, i, port, j) :: rank[j] < rank[i])
  }

  // ----- which nodes the stages keep -----

  ghost predicate InputsAvoidEarlier(stages: seq<Stage>, plans: seq<StagePlan>) {
    |plans| == |stages| && forall k, j, t | 0 <= j <= k < |plans| && t in plans[k].inputs :: t.id != stages[j].stageId
  }

  /** What a stage with such inputs leaves of the nodes before it. */
  lemma StageAdded(stages: seq<Stage>, plans: seq<StagePlan>, n: nat, id: string)
    requires StagesOrdered(stages) && InputsAvoidEarlier(stages, plans) && 0 < n <= |stages|
    ensures var before, after, inputs := DraftOf(stages, plans, n - 1), DraftOf(stages, plans, n), plans[n - 1].inputs;
      && SynthesizedIds(after.inputs) == SynthesizedIds(before.inputs) + SynthesizedIds(inputs)
      && (id in SynthesizedIds(inputs) ==> id in after.nodes && IsText(after.nodes[id]))
      && (id !in SynthesizedIds(inputs) && id != stages[n - 1].stageId && id in before.nodes ==>
          id in after.nodes && after.nodes[id] == before.nodes[id])
      && (id == stages[n - 1].stageId ==> id in after.nodes && after.nodes[id] == plans[n - 1].node)
  {
    var before, inputs := DraftOf(stages, plans, n - 1), plans[n - 1].inputs;
    SynthesizedIdsAppend(before.inputs, inputs);
    AddInputsAt(before.nodes, inputs, id);
  }

  /** If no input takes an earlier stage's id, every stage keeps its node. */
  lemma {:induction false} LaterKeepStages(stages: seq<Stage>, plans: seq<StagePlan>, n: nat)
    requires StagesOrdered(stages) && InputsAvoidEarlier(stages, plans) && n <= |stages|
    ensures StagesOwn(stages, plans, n, DraftOf(stages, plans, n))
  {
    if n > 0 {
      LaterKeepStages(stages, plans, n - 1);
      forall i | 0 <= i < n { StageAdded(stages, plans, n, stages[i].stageId); }
    }
  }

  /** The ids of inputs that are no stage's hold texts. */
  lemma {:induction false} LaterKeepTexts(stages: seq<Stage>, plans: seq<StagePlan>, n: nat, id: string)
    requires StagesOrdered(stages) && InputsAvoidEarlier(stages, plans) && n <= |stages|
    requires id in SynthesizedIds(DraftOf(stages, plans, n).inputs) && id !in StageIds(stages, n)
    ensures var nodes := DraftOf(stages, plans, n).nodes; id in nodes && IsText(nodes[id])
  {
    if n > 0 {
      StageAdded(stages, plans, n, id);
      if id !in SynthesizedIds(plans[n - 1].inputs) {
        LaterKeepTexts(stages, plans, n - 1, id);
      }
    }
  }

  /** An earlier stage whose id is taken ends up as a text. */
  lemma {:induction false} EarlierLost(stages: seq<Stage>, plans: seq<StagePlan>, n: nat, k: nat, j: nat, t: TextInput)
    requires StagesOrdered(stages) && j < k < n <= |stages| == |plans|
    requires t in plans[k].inputs && t.id == stages[j].stageId
    ensures var draft := DraftOf(stages, plans, n); t.id in draft.nodes && IsText(draft.nodes[t.id])
  {
    var before, inputs := DraftOf(stages, plans, n - 1), plans[n - 1].inputs;
    if n == k + 1 {
      assert t.id in SynthesizedIds(inputs);
    } else {
      EarlierLost(stages, plans, n - 1, k, j, t);
    }
    AddInputsAt(before.nodes, inputs, t.id);
  }

  lemma OwnIdIsLonger(id: string, port: string)
    ensures InputId(id, port) != id
  {
    assert |InputId(id, port)| > |id|;
  }

  lemma LaterMeansAvoiding(env: Env, p: IntentPlan, plans: seq<StagePlan>)
    requires Compiled(env, p, plans) && OnlyLaterTaken(env, p.stages)
    ensures InputsAvoidEarlier(p.stages, plans)
  {
    forall k, j, t | 0 <= j <= k < |plans| && t in plans[k].inputs ensures t.id != p.stages[j].stageId {
      assert PlanSound(env, p.stages, k, plans[k]);
      PlanInputs(env, p.stages, k, plans[k]);
      assert !Takes(env, p.stages, k, t.port, j);
    }
  }

  /** What is taken from an earlier stage is lost in the assembled graph. */
  lemma TakenIsLost(env: Env, p: IntentPlan, plans: seq<StagePlan>, i: nat, j: nat, t: TextInput)
    requires Compiled(env, p, plans) && j < i < |p.stages|
    requires t in plans[i].inputs && t.id == p.stages[j].stageId
    ensures !StageComplete(env, Assembled(env, p, plans), p.stages[j])
  {
    EarlierLost(p.stages, plans, |p.stages|, i, j, t);
    AssembledNodes(env, p, WholeDraft(p, plans));
  }

  /** The input by which an id is taken. */
  lemma TakenInput(env: Env, p: IntentPlan, plans: seq<StagePlan>, i: nat, port: string, j: nat)
    returns (t: TextInput)
    requires Compiled(env, p, plans) && Takes(env, p.stages, i, port, j)
    ensures t in plans[i].inputs && SynthesizedFor(env, p.stages, i, t) && t.id == p.stages[j].stageId
    ensures t.consumer == p.stages[i].stageId && t.port == port && i != j
  {
    MaterializedInDraft(env, p.stages, plans, i, port);
    t :| t in plans[i].inputs && t.port == port && SynthesizedFor(env, p.stages, i, t)
      && t in WholeDraft(p, plans).inputs;
    OwnIdIsLonger(p.stages[i].stageId, port);
  }

  /** A sound graph has lost no stage. */
  lemma CompleteMeansLater(env: Env, p: IntentPlan, plans: seq<StagePlan>)
    requires Compiled(env, p, plans)
    requires forall i | 0 <= i < |p.stages| :: StageComplete(env, Assembled(env, p, plans), p.stages[i])
    ensures OnlyLaterTaken(env, p.stages)
  {
    forall i: nat, j: nat, port: string | Takes(env, p.stages, i, port, j) ensures i < j {
      var t := TakenInput(env, p, plans, i, port, j);
      if j < i {
        TakenIsLost(env, p, plans, i, j, t);
      }
    }
  }

  // ----- ports -----

  lemma TextLabel(t: PortType)
    ensures PortTypeLabel(t) == "text" <==> t == Text
  {
    assert "image"[0] != "text"[0] && "video"[0] != "text"[0] && "audio"[0] != "text"[0];
    assert "mask"[0] != "text"[0] && "json"[0] != "text"[0];
  }

  /** The edge of an input whose id is a stage's joins equal types exactly if that stage gives
      text. */
  lemma TakenPort(env: Env, p: IntentPlan, plans: seq<StagePlan>, i: nat, t: TextInput, j: nat)
    requires Compiled(env, p, plans) && StagesOwn(p.stages, plans, |p.stages|, WholeDraft(p, plans))
    requires SynthesizedFor(env, p.stages, i, t) && j < |p.stages| && t.id == p.stages[j].stageId
    ensures var g := Assembled(env, p, plans);
      && t.id in g.nodes && t.consumer in g.nodes
      && (PortsMatch(env, g, EdgeOf(t)) <==> GivesText(env, p.stages[j]))
  {
    StageNodeType(env, p, plans, i);
    StageNodeType(env, p, plans, j);
    var outputs := StageDefinition(env, p.stages[j]).value.outputs;
    if PortNamed(outputs, "text").Some? {
      TextLabel(PortNamed(outputs, "text").value.portType);
    }
  }

  /** The edge of an input that holds its own text always does. */
  lemma OwnPort(env: Env, p: IntentPlan, plans: seq<StagePlan>, i: nat, t: TextInput)
    requires Compiled(env, p, plans) && StagesOwn(p.stages, plans, |p.stages|, WholeDraft(p, plans))
    requires TextInputsRegistered(env) && SynthesizedFor(env, p.stages, i, t)
    requires t.id in WholeDraft(p, plans).nodes && IsText(WholeDraft(p, plans).nodes[t.id])
    ensures var g := Assembled(env, p, plans);
      t.id in g.nodes && t.consumer in g.nodes && PortsMatch(env, g, EdgeOf(t))
  {
    StageNodeType(env, p, plans, i);
    AssembledNodes(env, p, WholeDraft(p, plans));
  }

  lemma StagePort(env: Env, p: IntentPlan, plans: seq<StagePlan>, i: nat, e: GraphEdge)
    requires Compiled(env, p, plans) && StagesOwn(p.stages, plans, |p.stages|, WholeDraft(p, plans))
    requires i < |p.stages| && StageEdge(env, p.stages, i, e)
    ensures var g := Assembled(env, p, plans);
      e.from.node in g.nodes && e.to.node in g.nodes && PortsMatch(env, g, e)
  {
    var j :| 0 <= j < |p.stages| && e.from.node == p.stages[j].stageId && Consumes(p.stages, i, j)
      && StageDefinition(env, p.stages[j]).Ok?
      && JoinsEqualTypes(StageDefinition(env, p.stages[j]).value, StageDefinition(env, p.stages[i]).value, e);
    StageNodeType(env, p, plans, i);
    StageNodeType(env, p, plans, j);
  }

  lemma TextsMatch(env: Env, p: IntentPlan, plans: seq<StagePlan>, e: GraphEdge)
    requires Compiled(env, p, plans) && InputsAvoidEarlier(p.stages, plans) && TextInputsRegistered(env)
    requires TakenGiveText(env, p.stages) && e in WholeDraft(p, plans).edges
    ensures var g := Assembled(env, p, plans);
      e.from.node in g.nodes && e.to.node in g.nodes && PortsMatch(env, g, e)
  {
    LaterKeepStages(p.stages, plans, |p.stages|);
    var i, text := EdgeKinds(env, p, plans, e);
    if text == None {
      StagePort(env, p, plans, i, e);
    } else if text.value.id in StageIds(p.stages, |p.stages|) {
      var j :| 0 <= j < |p.stages| && p.stages[j].stageId == text.value.id;
      assert Takes(env, p.stages, i, text.value.port, j);
      TakenPort(env, p, plans, i, text.value, j);
    } else {
      assert text.value.id in SynthesizedIds(WholeDraft(p, plans).inputs);
      LaterKeepTexts(p.stages, plans, |p.stages|, text.value.id);
      OwnPort(env, p, plans, i, text.value);
    }
  }

  lemma MatchingGivesText(env: Env, p: IntentPlan, plans: seq<StagePlan>)
    requires Compiled(env, p, plans) && StagesOwn(p.stages, plans, |p.stages|, WholeDraft(p, plans))
    requires EdgeClosed(Assembled(env, p, plans))
    requires forall e | e in Assembled(env, p, plans).edges :: PortsMatch(env, Assembled(env, p, plans), e)
    ensures TakenGiveText(env, p.stages)
  {
    forall i: nat, j: nat, port: string | Takes(env, p.stages, i, port, j) ensures GivesText(env, p.stages[j]) {
      var t := TakenInput(env, p, plans, i, port, j);
      TextEdgeIsThere(env, p, plans, i, t);
      TakenPort(env, p, plans, i, t, j);
    }
  }

  lemma TextEdgeIsThere(env: Env, p: IntentPlan, plans: seq<StagePlan>, i: nat, t: TextInput)
    requires Compiled(env, p, plans) && i < |p.stages| && t in plans[i].inputs
    ensures EdgeOf(t) in Assembled(env, p, plans).edges
  {
    assert PlanSound(env, p.stages, i, plans[i]);
    PartsInDraft(p.stages, plans, |p.stages|, i);
  }

  lemma StageEdgeIsThere(env: Env, p: IntentPlan, plans: seq<StagePlan>, i: nat, j: nat)
    requires Compiled(env, p, plans) && i < |p.stages| && j < |p.stages| && Consumes(p.stages, i, j)
    ensures exists e | e in Assembled(env, p, plans).edges ::
      e.from.node == p.stages[j].stageId && e.to.node == p.stages[i].stageId
  {
    assert PlanSound(env, p.stages, i, plans[i]);
    PartsInDraft(p.stages, plans, |p.stages|, i);
    var r :| r in p.stages[i].inputFrom && r.stageId == p.stages[j].stageId;
    var x :| 0 <= x < |p.stages[i].inputFrom| && p.stages[i].inputFrom[x] == r;
    assert plans[i].edges[x] in plans[i].edges;
  }

  // ----- order -----

  function IndexIn(order: seq<string>, id: string): (k: nat)
    ensures k <= |order| && (id in order ==> k < |order| && order[k] == id)
  {
    if order == [] || order[0] == id then 0 else 1 + IndexIn(order[1..], id)
  }

  /** An order places a source before its target. */
  lemma OrderRises(es: seq<GraphEdge>, order: seq<string>, e: GraphEdge)
    requires Respects(es, order) && e in es && e.to.node in order
    ensures e.from.node in order && IndexIn(order, e.from.node) < IndexIn(order, e.to.node)
  {
    var k := IndexIn(order, e.to.node);
    assert e.from.node in order[..k];
    var m :| 0 <= m < k && order[..k][m] == e.from.node;
    assert order[m] == e.from.node && order[IndexIn(order, e.from.node)] == e.from.node;
  }

  lemma OrderRanks(env: Env, p: IntentPlan, plans: seq<StagePlan>, order: seq<string>)
    requires Compiled(env, p, plans) && IsOrder(Assembled(env, p, plans), order)
    ensures exists rank :: Ranked(env, p.stages, rank)
  {
    var g, n := Assembled(env, p, plans), |p.stages|;
    var rank: seq<nat> := seq(n, i requires 0 <= i < n => IndexIn(order, p.stages[i].stageId));
    forall e | e in g.edges ensures IndexIn(order, e.from.node) < IndexIn(order, e.to.node) {
      assert e.to.node in Members(order);
      OrderRises(g.edges, order, e);
    }
    forall i, j | 0 <= i < n && 0 <= j < n && Consumes(p.stages, i, j) ensures rank[j] < rank[i] {
      StageEdgeIsThere(env, p, plans, i, j);
    }
    forall i: nat, j: nat, port: string | Takes(env, p.stages, i, port, j) ensures rank[j] < rank[i] {
      var t := TakenInput(env, p, plans, i, port, j);
      TextEdgeIsThere(env, p, plans, i, t);
    }
    assert Ranked(env, p.stages, rank);
  }

  function Height(p: IntentPlan, rank: seq<nat>, id: string): int
    requires |rank| == |p.stages|
  {
    var i := LastWith(p.stages, |p.stages|, id);
    if i.Some? && i.value < |rank| then rank[i.value] + 1 else 0
  }

  lemma HeightOfStage(p: IntentPlan, rank: seq<nat>, i: nat)
    requires StagesOrdered(p.stages) && |rank| == |p.stages| && i < |p.stages|
    ensures Height(p, rank, p.stages[i].stageId) == rank[i] + 1
  {
    LastWithUnique(p.stages, |p.stages|, i);
  }

  lemma HeightRises(env: Env, p: IntentPlan, plans: seq<StagePlan>, rank: seq<nat>, e: GraphEdge)
    requires Compiled(env, p, plans) && Ranked(env, p.stages, rank) && e in WholeDraft(p, plans).edges
    ensures Height(p, rank, e.from.node) < Height(p, rank, e.to.node)
  {
    var i, text := EdgeKinds(env, p, plans, e);
    HeightOfStage(p, rank, i);
    if text == None {
      var j :| 0 <= j < |p.stages| && e.from.node == p.stages[j].stageId && Consumes(p.stages, i, j);
      HeightOfStage(p, rank, j);
    } else {
      var taken := LastWith(p.stages, |p.stages|, e.from.node);
      if taken.Some? {
        assert Takes(env, p.stages, i, text.value.port, taken.value);
      }
    }
  }

  lemma RanksOrder(env: Env, p: IntentPlan, plans: seq<StagePlan>, rank: seq<nat>)
    requires Compiled(env, p, plans) && Ranked(env, p.stages, rank)
    ensures exists order :: IsOrder(Assembled(env, p, plans), order)
  {
    var g := Assembled(env, p, plans);
    AssembledIsClosed(env, p, plans);
    var heights := map id | id in g.nodes :: Height(p, rank, id);
    forall e | e in g.edges ensures heights[e.from.node] < heights[e.to.node] {
      HeightRises(env, p, plans, rank, e);
    }
    var order := RankGivesOrder(g, heights);
  }

  // ----- the exact condition -----

  ghost predicate CollisionsFit(env: Env, stages: seq<Stage>) {
    && OnlyLaterTaken(env, stages)
    && (exists rank :: Ranked(env, stages, rank))
    && (TextInputsRegistered(env) ==> TakenGiveText(env, stages))
  }

  lemma FittingIsSound(env: Env, p: IntentPlan, plans: seq<StagePlan>)
    requires Compiled(env, p, plans) && CollisionsFit(env, p.stages)
    ensures GraphSound(env, p, Assembled(env, p, plans))
  {
    var rank :| Ranked(env, p.stages, rank);
    LaterMeansAvoiding(env, p, plans);
    LaterKeepStages(p.stages, plans, |p.stages|);
    AssembledIsClosed(env, p, plans);
    RanksOrder(env, p, plans, rank);
    forall i | 0 <= i < |p.stages| { AssembledStagesComplete(env, p, plans, i); }
    if TextInputsRegistered(env) {
      forall e | e in Assembled(env, p, plans).edges ensures PortsMatch(env, Assembled(env, p, plans), e) {
        TextsMatch(env, p, plans, e);
      }
    }
  }

  lemma SoundIsFitting(env: Env, p: IntentPlan, plans: seq<StagePlan>)
    requires Compiled(env, p, plans) && GraphSound(env, p, Assembled(env, p, plans))
    ensures CollisionsFit(env, p.stages)
  {
    CompleteMeansLater(env, p, plans);
    LaterMeansAvoiding(env, p, plans);
    LaterKeepStages(p.stages, plans, |p.stages|);
    var order :| IsOrder(Assembled(env, p, plans), order);
    OrderRanks(env, p, plans, order);
    if TextInputsRegistered(env) {
      MatchingGivesText(env, p, plans);
    }
  }

  /** An assembled graph is sound exactly when no earlier stage's id is taken for an input, the
      stages that are taken give text, and consuming and taking together go round in no circle. */
  lemma SoundExactly(env: Env, p: IntentPlan)
    requires ResolverSound(env) && StagesOrdered(p.stages) && Drafted(env, p.stages, |p.stages|).Ok?
    ensures GraphSound(env, p, Assemble(env, p, Drafted(env, p.stages, |p.stages|).value))
      <==> CollisionsFit(env, p.stages)
  {
    var plans := PlansOfDraft(env, p);
    if CollisionsFit(env, p.stages) {
      FittingIsSound(env, p, plans);
    }
    if GraphSound(env, p, Assembled(env, p, plans)) {
      SoundIsFitting(env, p, plans);
    }
  }
}
