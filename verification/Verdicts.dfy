/** Which error a rejected plan or graph is reported with (crates/compiler/src/intent.rs:60-184,
    crates/graph/src/lib.rs:76-184): that of the first thing wrong with it. */
module Verdicts {
  import opened Json
  import opened Ordering
  import opened Seqs
  import opened Graph
  import opened Topology
  import opened Intent
  import opened GraphBuilder
  import opened GraphCheck

  // ----- stages -----

  /** One to 64 characters: a lower-case letter, then such letters, digits, `_` and `-`. */
  lemma StageIdsExactly(id: string)
    ensures ValidStageId(id) <==>
      && 1 <= |id| <= 64 && 'a' <= id[0] <= 'z'
      && forall i | 1 <= i < |id| ::
           'a' <= id[i] <= 'z' || '0' <= id[i] <= '9' || id[i] == '_' || id[i] == '-'
  {
  }

  predicate IsEarlier(stages: seq<Stage>, i: nat, id: string)
    requires i <= |stages|
  {
    exists j | 0 <= j < i :: stages[j].stageId == id
  }

  ghost predicate StageFine(stages: seq<Stage>, i: nat)
    requires i < |stages|
  {
    && ValidStageId(stages[i].stageId) && !IsEarlier(stages, i, stages[i].stageId) && stages[i].params.Obj?
    && forall r | r in stages[i].inputFrom :: IsEarlier(stages, i, r.stageId)
  }

  /** What is wrong with one stage: its id, that it is taken, its params, its first reference that
      does not lead to an earlier stage. */
  ghost predicate StageErrs(stages: seq<Stage>, i: nat, e: PlanError)
    requires i < |stages|
  {
    var stage := stages[i];
    if !ValidStageId(stage.stageId) then e == InvalidStageId(stage.stageId)
    else if IsEarlier(stages, i, stage.stageId) then e == DuplicateStageId(stage.stageId)
    else if !stage.params.Obj? then e == PlanError.ParamsNotObject(stage.stageId)
    else exists k | 0 <= k < |stage.inputFrom| ::
      && !IsEarlier(stages, i, stage.inputFrom[k].stageId) && e == NotEarlier(stage.stageId, stage.inputFrom[k].stageId)
      && forall m | 0 <= m < k :: IsEarlier(stages, i, stage.inputFrom[m].stageId)
  }

  lemma {:induction false} FirstLateInput(stages: seq<Stage>, i: nat, k: nat)
    requires i < |stages| && k <= |stages[i].inputFrom|
    requires forall m | 0 <= m < k :: IsEarlier(stages, i, stages[i].inputFrom[m].stageId)
    ensures var d := InputsDefect(Ids(stages)[..i], stages[i], k);
      d.Some? ==> exists m | k <= m < |stages[i].inputFrom| ::
        && !IsEarlier(stages, i, stages[i].inputFrom[m].stageId)
        && d.value == NotEarlier(stages[i].stageId, stages[i].inputFrom[m].stageId)
        && forall x | 0 <= x < m :: IsEarlier(stages, i, stages[i].inputFrom[x].stageId)
    decreases |stages[i].inputFrom| - k
  {
    if k < |stages[i].inputFrom| {
      SeenBefore(stages, i, stages[i].inputFrom[k].stageId);
      if IsEarlier(stages, i, stages[i].inputFrom[k].stageId) {
        FirstLateInput(stages, i, k + 1);
      }
    }
  }

  lemma StageVerdict(stages: seq<Stage>, i: nat)
    requires i < |stages|
    ensures var d := StageDefect(Ids(stages)[..i], stages[i]);
      && (d == None <==> StageFine(stages, i)) && (d.Some? ==> StageErrs(stages, i, d.value))
  {
    StageDefectNone(stages, i);
    SeenBefore(stages, i, stages[i].stageId);
    FirstLateInput(stages, i, 0);
  }

  lemma {:induction false} FirstStageVerdict(stages: seq<Stage>, n: nat)
    requires n <= |stages| && forall j | 0 <= j < n :: StageFine(stages, j)
    ensures var d := StagesDefect(stages, n);
      && (d == None <==> forall j | 0 <= j < |stages| :: StageFine(stages, j))
      && (d.Some? ==> exists i | 0 <= i < |stages| :: FirstBadStage(stages, i) && StageErrs(stages, i, d.value))
    decreases |stages| - n
  {
    if n < |stages| {
      StageVerdict(stages, n);
      if StageFine(stages, n) {
        FirstStageVerdict(stages, n + 1);
      } else {
        assert FirstBadStage(stages, n);
      }
    }
  }

  ghost predicate FirstBadStage(stages: seq<Stage>, i: nat)
    requires i < |stages|
  {
    !StageFine(stages, i) && forall j | 0 <= j < i :: StageFine(stages, j)
  }

  // ----- outputs and topology -----

  ghost predicate FirstUnknownOutput(p: IntentPlan, k: nat)
    requires k < |p.outputStageIds|
  {
    && !IsEarlier(p.stages, |p.stages|, p.outputStageIds[k])
    && forall m | 0 <= m < k :: IsEarlier(p.stages, |p.stages|, p.outputStageIds[m])
  }

  lemma {:induction false} FirstOutputVerdict(p: IntentPlan, n: nat)
    requires n <= |p.outputStageIds|
    requires forall m | 0 <= m < n :: IsEarlier(p.stages, |p.stages|, p.outputStageIds[m])
    ensures var d := OutputsDefect(Ids(p.stages), p.outputStageIds, n);
      && (d == None <==> forall m | 0 <= m < |p.outputStageIds| :: IsEarlier(p.stages, |p.stages|, p.outputStageIds[m]))
      && (d.Some? ==> exists k | 0 <= k < |p.outputStageIds| ::
            FirstUnknownOutput(p, k) && d.value == UnknownOutput(p.outputStageIds[k]))
    decreases |p.outputStageIds| - n
  {
    if n < |p.outputStageIds| {
      IdMeaning(p.stages, p.outputStageIds[n]);
      if IsEarlier(p.stages, |p.stages|, p.outputStageIds[n]) {
        FirstOutputVerdict(p, n + 1);
      } else {
        assert FirstUnknownOutput(p, n);
      }
    }
  }

  /** Both lists increase; one names the declared outputs, the other the unconsumed stages. */
  ghost predicate Mismatch(p: IntentPlan, e: PlanError) {
    && e.OutputsMismatch? && Increasing(e.declared) && Increasing(e.actual) && e.declared != e.actual
    && (forall id :: id in e.declared <==> id in p.outputStageIds)
    && (forall id :: id in e.actual <==>
          exists i | 0 <= i < |p.stages| :: p.stages[i].stageId == id && Unconsumed(p.stages, i))
  }

  ghost predicate FirstLooseStage(stages: seq<Stage>, i: nat)
    requires i < |stages|
  {
    !LinkedAt(stages, i) && forall j | 0 <= j < i :: LinkedAt(stages, j)
  }

  function LooseError(stages: seq<Stage>, i: nat): PlanError
    requires i < |stages|
  {
    if i == 0 then FirstConsumes(stages[0].stageId) else NotPrevious(stages[i].stageId, stages[i - 1].stageId)
  }

  lemma {:induction false} FirstLooseVerdict(stages: seq<Stage>, n: nat)
    requires n <= |stages| && forall j | 0 <= j < n :: LinkedAt(stages, j)
    ensures var d := LinearDefect(stages, n);
      && (d == None <==> SingleChain(stages))
      && (d.Some? ==> exists i | 0 <= i < |stages| :: FirstLooseStage(stages, i) && d.value == LooseError(stages, i))
    decreases |stages| - n
  {
    if n < |stages| {
      assert LinearStageDefect(stages, n) == if LinkedAt(stages, n) then None else Some(LooseError(stages, n));
      if LinkedAt(stages, n) {
        FirstLooseVerdict(stages, n + 1);
      } else {
        assert FirstLooseStage(stages, n);
      }
    }
  }

  lemma MismatchIsReported(p: IntentPlan)
    requires StagesOrdered(p.stages)
    ensures var declared, actual := Dedup(Sort(p.outputStageIds, StrLeq)), Sort(Sinks(p), StrLeq);
      declared != actual ==> Mismatch(p, OutputsMismatch(declared, actual))
  {
    StrLeqPreorder();
    SortSorts(p.outputStageIds, StrLeq);
    SortSorts(Sinks(p), StrLeq);
    DedupIncreases(Sort(p.outputStageIds, StrLeq));
    SinksUnique(p);
    assert Unique(Sort(Sinks(p), StrLeq));
    UniqueSortIncreases(Sort(Sinks(p), StrLeq));
    forall id ensures id in Sinks(p) <==>
      exists i | 0 <= i < |p.stages| :: p.stages[i].stageId == id && Unconsumed(p.stages, i)
    {
      SinksMeaning(p, id);
    }
  }

  ghost predicate StagesErr(stages: seq<Stage>, e: PlanError) {
    exists i | 0 <= i < |stages| :: FirstBadStage(stages, i) && StageErrs(stages, i, e)
  }

  ghost predicate OutputsErr(p: IntentPlan, e: PlanError) {
    exists k | 0 <= k < |p.outputStageIds| :: FirstUnknownOutput(p, k) && e == UnknownOutput(p.outputStageIds[k])
  }

  ghost predicate LinksErr(p: IntentPlan, e: PlanError) {
    && p.topology == Linear && OutputsAreSinks(p)
    && exists i | 0 <= i < |p.stages| :: FirstLooseStage(p.stages, i) && e == LooseError(p.stages, i)
  }

  ghost predicate AllFine(stages: seq<Stage>) { forall i | 0 <= i < |stages| :: StageFine(stages, i) }

  ghost predicate AllKnown(p: IntentPlan) {
    forall k | 0 <= k < |p.outputStageIds| :: IsEarlier(p.stages, |p.stages|, p.outputStageIds[k])
  }

  /** The error is that of the first thing wrong, in the order of the checks. */
  ghost predicate PlanErrs(p: IntentPlan, e: PlanError) {
    if p.intentVersion != "1" then e == UnsupportedVersion(p.intentVersion)
    else if p.stages == [] then e == NoStages
    else if p.outputStageIds == [] then e == NoOutputs
    else if !AllFine(p.stages) then StagesErr(p.stages, e)
    else if !AllKnown(p) then OutputsErr(p, e)
    else if !OutputsAreSinks(p) then Mismatch(p, e)
    else LinksErr(p, e)
  }

  lemma FineIsOrdered(stages: seq<Stage>)
    requires AllFine(stages)
    ensures StagesOrdered(stages)
  {
    forall i, j | 0 <= i < j < |stages| ensures stages[i].stageId != stages[j].stageId {
      assert StageFine(stages, j);
    }
    forall i | 0 <= i < |stages| ensures ValidStageId(stages[i].stageId) && stages[i].params.Obj? {
      assert StageFine(stages, i);
    }
    forall j, r | 0 <= j < |stages| && r in stages[j].inputFrom
      ensures exists i | 0 <= i < j :: stages[i].stageId == r.stageId
    {
      assert StageFine(stages, j) && IsEarlier(stages, j, r.stageId);
    }
  }

  lemma TopologyVerdict(p: IntentPlan)
    requires p.stages != [] && AllFine(p.stages) && AllKnown(p)
    ensures var d := TopologyDefect(p);
      d.Some? ==> if !OutputsAreSinks(p) then Mismatch(p, d.value) else LinksErr(p, d.value)
  {
    FineIsOrdered(p.stages);
    MismatchIsReported(p);
    OutputsMeaning(p);
    FirstOutputVerdict(p, 0);
    FirstLooseVerdict(p.stages, 0);
    if OutputsAreSinks(p) && p.topology == Linear && SingleChain(p.stages) {
      ChainHasOneSink(p);
    }
  }

  /** A rejected plan is reported with the first thing that is wrong. */
  lemma PlanVerdict(p: IntentPlan)
    ensures PlanDefect(p).Some? ==> PlanErrs(p, PlanDefect(p).value)
  {
    FirstStageVerdict(p.stages, 0);
    FirstOutputVerdict(p, 0);
    if p.stages != [] && AllFine(p.stages) && AllKnown(p) {
      TopologyVerdict(p);
    }
  }

  // ----- graphs -----

  ghost predicate FirstUnprovided(g: WorkflowGraph, id: string, node: GraphNode, ports: seq<PortDefinition>, k: nat)
    requires k < |ports|
  {
    && ports[k].required && !Provided(g, id, node, ports[k].name)
    && forall m | 0 <= m < k && ports[m].required :: Provided(g, id, node, ports[m].name)
  }

  /** What is wrong with one node: its size, its type, its params, its first required input that
      nothing provides. */
  ghost predicate NodeErrs(reg: Registry, g: WorkflowGraph, id: string, f: Fault)
    requires id in g.nodes
  {
    var node := g.nodes[id];
    if node.size.Some? && !(node.size.value.x > 0 && node.size.value.y > 0) then f == InvalidNodeSize(id)
    else if node.nodeType !in reg.definitions then f == UnknownNodeType(node.nodeType)
    else if !reg.paramsFit(node.nodeType, node.params) then f == ParamsRejected(node.nodeType)
    else
      var ports := reg.definitions[node.nodeType].inputs;
      exists k | 0 <= k < |ports| ::
        FirstUnprovided(g, id, node, ports, k) && f == MissingRequiredInput(id, ports[k].name)
  }

  lemma {:induction false} UnprovidedVerdict(
    g: WorkflowGraph, id: string, node: GraphNode, ports: seq<PortDefinition>, n: nat)
    requires n <= |ports| && forall m | 0 <= m < n && ports[m].required :: Provided(g, id, node, ports[m].name)
    ensures var d := UnprovidedFrom(g, id, node, ports, n);
      d.Some? ==> exists k | 0 <= k < |ports| :: FirstUnprovided(g, id, node, ports, k) && d.value == ports[k].name
    decreases |ports| - n
  {
    if n < |ports| {
      if ports[n].required && !Provided(g, id, node, ports[n].name) {
        assert FirstUnprovided(g, id, node, ports, n);
      } else {
        UnprovidedVerdict(g, id, node, ports, n + 1);
      }
    }
  }

  lemma NodeVerdict(reg: Registry, g: WorkflowGraph, id: string)
    requires id in g.nodes
    ensures var f := NodeFault(reg, g, id, g.nodes[id]); f.Some? ==> NodeErrs(reg, g, id, f.value)
  {
    if g.nodes[id].nodeType in reg.definitions {
      UnprovidedVerdict(g, id, g.nodes[id], reg.definitions[g.nodes[id].nodeType].inputs, 0);
    }
  }

  /** Of the invalid nodes the one with the least id. */
  ghost predicate LeastBadNode(reg: Registry, g: WorkflowGraph, id: string) {
    && id in g.nodes && !NodeValid(reg, g, id)
    && forall x | x in g.nodes && !NodeValid(reg, g, x) :: StrLeq(id, x)
  }

  lemma {:induction false} NodesVerdict(reg: Registry, g: WorkflowGraph, ids: seq<string>)
    requires Increasing(ids) && (forall id | id in ids :: id in g.nodes)
    requires forall x | x in g.nodes && !NodeValid(reg, g, x) :: x in ids
    ensures var f := NodesFault(reg, g, ids);
      f.Some? ==> exists id :: LeastBadNode(reg, g, id) && NodeErrs(reg, g, id, f.value)
  {
    if ids != [] {
      NodeVerdict(reg, g, ids[0]);
      NodeFaultMeaning(reg, g, ids[0]);
      if NodeValid(reg, g, ids[0]) {
        assert Increasing(ids[1..]);
        NodesVerdict(reg, g, ids[1..]);
      } else {
        LeastFirst(ids);
        assert LeastBadNode(reg, g, ids[0]);
      }
    }
  }

  lemma LeastFirst(ids: seq<string>)
    requires ids != [] && Increasing(ids)
    ensures forall x | x in ids :: StrLeq(ids[0], x)
  {
    StrLeqTotal(ids[0], ids[0]);
  }

  /** What is wrong with one edge: an endpoint, the type of an endpoint, a port, a second edge into
      a single input, the types. */
  predicate EdgeErrs(reg: Registry, g: WorkflowGraph, i: nat, f: Fault)
    requires i < |g.edges|
  {
    var e := g.edges[i];
    if e.from.node !in g.nodes then f == EndpointMissing(e.from.node)
    else if e.to.node !in g.nodes then f == EndpointMissing(e.to.node)
    else if g.nodes[e.from.node].nodeType !in reg.definitions then f == UnknownNodeType(g.nodes[e.from.node].nodeType)
    else if g.nodes[e.to.node].nodeType !in reg.definitions then f == UnknownNodeType(g.nodes[e.to.node].nodeType)
    else
      var source := reg.definitions[g.nodes[e.from.node].nodeType];
      var target := reg.definitions[g.nodes[e.to.node].nodeType];
      if PortNamed(source.outputs, e.from.name).None? then f == MissingPort(e.from.node, e.from.name)
      else if PortNamed(target.inputs, e.to.name).None? then f == MissingPort(e.to.node, e.to.name)
      else if !PortNamed(target.inputs, e.to.name).value.many && exists j | 0 <= j < i :: g.edges[j].to == e.to
      then f == DuplicateInputConnection(e.to.node, e.to.name)
      else f == TypesDiffer(e.from, e.to)
  }

  ghost predicate FirstBadEdge(reg: Registry, g: WorkflowGraph, i: nat)
    requires i < |g.edges|
  {
    !EdgeFine(reg, g, i) && forall j | 0 <= j < i :: EdgeFine(reg, g, j)
  }

  ghost predicate EdgeFine(reg: Registry, g: WorkflowGraph, i: nat)
    requires i < |g.edges|
  {
    EdgeValid(reg, g, g.edges[i]) && (ConnectedBefore(g, i) ==> TargetPort(reg, g, g.edges[i]).value.many)
  }

  lemma {:induction false} EdgesVerdict(reg: Registry, g: WorkflowGraph, n: nat)
    requires n <= |g.edges| && forall j | 0 <= j < n :: EdgeFine(reg, g, j)
    ensures var f := EdgesFault(reg, g, n);
      f.Some? ==> exists i | 0 <= i < |g.edges| :: FirstBadEdge(reg, g, i) && EdgeErrs(reg, g, i, f.value)
    decreases |g.edges| - n
  {
    if n < |g.edges| {
      EdgeFaultMeaning(reg, g, n);
      if EdgeFine(reg, g, n) {
        EdgesVerdict(reg, g, n + 1);
      } else {
        assert FirstBadEdge(reg, g, n) && EdgeErrs(reg, g, n, EdgeFault(reg, g, n).value);
      }
    }
  }

  ghost predicate NodesErr(reg: Registry, g: WorkflowGraph, f: Fault) {
    exists id :: LeastBadNode(reg, g, id) && NodeErrs(reg, g, id, f)
  }

  ghost predicate EdgesErr(reg: Registry, g: WorkflowGraph, f: Fault) {
    exists i | 0 <= i < |g.edges| :: FirstBadEdge(reg, g, i) && EdgeErrs(reg, g, i, f)
  }

  /** The fault is that of the first thing wrong: schema, nodes by id, edges in order, cycles. */
  ghost predicate GraphErrs(reg: Registry, g: WorkflowGraph, f: Fault) {
    if g.schemaVersion != 1 then f == UnsupportedSchema(g.schemaVersion)
    else if exists id | id in g.nodes :: !NodeValid(reg, g, id) then NodesErr(reg, g, f)
    else if exists i | 0 <= i < |g.edges| :: !EdgeFine(reg, g, i) then EdgesErr(reg, g, f)
    else f == Cycle && !exists order :: IsOrder(g, order)
  }

  /** A rejected graph is reported with the first thing that is wrong. */
  lemma GraphVerdict(reg: Registry, g: WorkflowGraph)
    ensures GraphFault(reg, g).Some? ==> GraphErrs(reg, g, GraphFault(reg, g).value)
  {
    var ids := SortedKeys(g.nodes.Keys);
    SortedKeysIncrease(g.nodes.Keys);
    NodesFaultMeaning(reg, g, ids);
    NodesVerdict(reg, g, ids);
    EdgesFaultMeaning(reg, g, 0);
    forall k | 0 <= k < |g.edges| { EdgeFaultMeaning(reg, g, k); }
    EdgesVerdict(reg, g, 0);
  }
}
