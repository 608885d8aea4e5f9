/** The compiler end to end (crates/compiler/src/lib.rs, `compile_for_connector`): validate,
    build, diff. */
module Compiler {
  import opened Json
  import opened Ordering
  import opened Graph
  import opened Topology
  import opened ProposalDiff
  import opened Convergence
  import opened Intent
  import opened Layout
  import opened GraphBuilder
  import opened StagePlans
  import opened BuiltGraph
  import opened AppliedGraph
  import opened GraphCheck

  datatype CompileOutcome =
    | Compiled(ops: seq<ProposalOp>, target: WorkflowGraph, resolvedStages: seq<ResolvedStage>, hints: seq<LayoutHint>)
    | Stopped(halt: Halt)
    | Rejected(defect: PlanError)

  /** What compiling an accepted plan gives: the build's halt, the semantic fault of the
      target, or the target with its diff. */
  ghost predicate CompilesTo(env: Env, p: IntentPlan, current: WorkflowGraph, r: CompileOutcome)
    requires ResolverSound(env) && Accepted(p)
  {
    match Drafted(env, p.stages, |p.stages|)
    case Err(halt) => r == Stopped(halt)
    case Ok(draft) =>
      var target := Assemble(env, p, draft);
      match env.semanticFault(target)
      case Some(code) => r == Stopped(Fail(GraphInvalid(code)))
      case None =>
        && r.Compiled? && r.target == target && r.resolvedStages == draft.resolved
        && r.ops == DiffOps(current, target)
        && r.hints == AllHints(p, draft)
  }

  method Compile(env: Env, p: IntentPlan, current: WorkflowGraph) returns (r: CompileOutcome)
    requires ResolverSound(env)
    ensures r.Rejected? <==> !Accepted(p)
    ensures !Accepted(p) ==> PlanDefect(p) == Some(r.defect)
    ensures Accepted(p) ==> CompilesTo(env, p, current, r)
  {
    AcceptsExactly(p);
    var defect := Validate(p);
    if defect.Some? {
      return Rejected(defect.value);
    }
    var built := Build(env, p);
    if built.Err? {
      return Stopped(built.error);
    }
    var ops := Diff(current, built.value.target);
    return Compiled(ops, built.value.target, built.value.resolvedStages, built.value.hints);
  }

  /** A compiled target is sound when no materialized port gets a stage's id, and goes left
      to right when moreover no two share an id. */
  lemma CompiledIsSound(env: Env, p: IntentPlan, current: WorkflowGraph, r: CompileOutcome)
    requires ResolverSound(env) && Accepted(p) && CompilesTo(env, p, current, r) && r.Compiled?
    requires NoCollision(env, p.stages)
    ensures GraphSound(env, p, r.target)
    ensures FreshIds(env, p.stages) ==> GoesRight(r.target)
  {
    AssembledIsSound(env, p);
    if FreshIds(env, p.stages) {
      FreshGoesRight(env, p);
    }
  }

  /** Applying the compiled operations to the graph they were compiled for, when no stale edge
      is held twice, gives a closed and acyclic graph, which is sound exactly when every stage
      is still fed. */
  lemma AppliedCompilation(env: Env, p: IntentPlan, current: WorkflowGraph, r: CompileOutcome)
    requires ResolverSound(env) && Accepted(p) && CompilesTo(env, p, current, r) && r.Compiled?
    requires NoCollision(env, p.stages) && StaleEdgesOnce(current, r.target)
    ensures ApplyOps(current, r.ops).Ok?
    ensures var applied := ApplyOps(current, r.ops).value;
      && EdgeClosed(applied) && (exists order :: IsOrder(applied, order))
      && GraphSound(env, p, r.target)
      && (GraphSound(env, p, applied) <==>
        forall i | 0 <= i < |p.stages| :: StillFed(env, current, r.target, p.stages[i]))
  {
    CompiledIsSound(env, p, current, r);
    ApplyingDiff(current, r.target);
    AppliedIsAcyclic(current, r.target);
    AppliedIsSoundExactly(env, p, current, r.target);
  }

  /** If semantic validation begins with the structural one, as the service's does, every
      compiled target is valid, whatever its ids. */
  lemma CompiledIsValid(
    env: Env, reg: Registry, p: IntentPlan, current: WorkflowGraph, r: CompileOutcome)
    requires ResolverSound(env) && Accepted(p) && CompilesTo(env, p, current, r) && r.Compiled?
    requires forall g :: GraphFault(reg, g).Some? ==> env.semanticFault(g).Some?
    ensures Valid(reg, r.target)
  {
    AcceptsExactlyValid(reg, r.target);
  }

  /** Compiling the same plan again, now against the target it gave, changes nothing. */
  lemma RecompilingIsIdle(
    env: Env, p: IntentPlan, current: WorkflowGraph, r: CompileOutcome, again: CompileOutcome)
    requires ResolverSound(env) && Accepted(p) && CompilesTo(env, p, current, r) && r.Compiled?
    requires CompilesTo(env, p, r.target, again)
    ensures again == r.(ops := [])
  {
    DiffEmptyExactly(r.target, r.target);
  }

  // ----- colliding ids -----

  const COLLIDING_ENV := Env(
    "rev",
    map["c" := "n"],
    map["b" := Binding("default", Obj(map[]))],
    map["n" := NodeDefinition("N", [PortDefinition("text", Text, true, false)],
      [PortDefinition("text", Text, true, false)], [], {})],
    (cap: string, model: Option<string>) => Found(Resolved(cap, model, "m", "b", "1")),
    (g: WorkflowGraph) => None)

  const FIRST := Stage("a", "c", None, [], Obj(map["text" := Str("hello")]))
  const SECOND := Stage("a-text-input", "c", None, [StageInputRef("a", "text")], Obj(map[]))
  const COLLIDING_PLAN := IntentPlan("1", Linear, [FIRST, SECOND], ["a-text-input"], [])

  const TEXT_EDGE := GraphEdge(Port("a-text-input", "text"), Port("a", "text"), "text")
  const STAGE_EDGE := GraphEdge(Port("a", "text"), Port("a-text-input", "text"), "text")

  lemma CollidingFirst()
    ensures ResolverSound(COLLIDING_ENV) && InputsKnown([FIRST, SECOND], [])
    ensures BuildStage(COLLIDING_ENV, [FIRST, SECOND], 0).Ok?
    ensures BuildStage(COLLIDING_ENV, [FIRST, SECOND], 0).value.edges == [TEXT_EDGE]
  {
    var definition := COLLIDING_ENV.definitions["n"];
    var port := definition.inputs[0];
    var params: map<string, Value> := map["text" := Str("hello")];
    var start := Parts(map[] + params, [], []);
    assert Fields(Obj(map[])) + Fields(FIRST.params) == params;
    assert InputId("a", "text") == "a-text-input";
    var parts := Materialize("a", {}, port, start);
    assert parts.edges == [TEXT_EDGE];
    assert MaterializeAll("a", {}, definition.inputs, start) == MaterializeAll("a", {}, [], parts) == parts;
    assert TEXT_EDGE in parts.edges && Wired(parts.edges, "a", "text");
    assert MissingInputs("a", definition.inputs, parts) == MissingInputs("a", [], parts) == [];
  }

  lemma CollidingSecond()
    ensures ResolverSound(COLLIDING_ENV) && InputsKnown([FIRST, SECOND], SECOND.inputFrom)
    ensures BuildStage(COLLIDING_ENV, [FIRST, SECOND], 1).Ok?
    ensures BuildStage(COLLIDING_ENV, [FIRST, SECOND], 1).value.edges == [STAGE_EDGE]
  {
    var stages := [FIRST, SECOND];
    var definition := COLLIDING_ENV.definitions["n"];
    var input := SECOND.inputFrom[0];
    assert FirstWith(stages, "a") == Some(FIRST);
    assert WireOne(COLLIDING_ENV, stages, SECOND, definition, input) == Ok(STAGE_EDGE);
    assert SECOND.inputFrom[1..] == [];
    assert WireAll(COLLIDING_ENV, stages, SECOND, definition, []) == Ok([]);
    assert SECOND.inputFrom == [input];
    assert [STAGE_EDGE] + [] == [STAGE_EDGE];
    assert WireAll(COLLIDING_ENV, stages, SECOND, definition, SECOND.inputFrom) == Ok([STAGE_EDGE]);
    assert BuildStage(COLLIDING_ENV, stages, 1)
        == FinishStage(COLLIDING_ENV, SECOND, definition, Resolved("c", None, "m", "b", "1"), 1, [STAGE_EDGE]);
    var start := Parts(map[], [STAGE_EDGE], []);
    assert Fields(Obj(map[])) + Fields(SECOND.params) == map[];
    assert STAGE_EDGE in start.edges && Wired(start.edges, "a-text-input", "text");
    assert Materialize("a-text-input", {}, definition.inputs[0], start) == start;
    assert MaterializeAll("a-text-input", {}, definition.inputs, start) ==
      MaterializeAll("a-text-input", {}, [], start) == start;
    assert MissingInputs("a-text-input", definition.inputs, start) == MissingInputs("a-text-input", [], start) == [];
  }

  lemma CollidingPlanAccepted()
    ensures Accepted(COLLIDING_PLAN)
  {
    var stages := COLLIDING_PLAN.stages;
    assert stages[1].inputFrom == [StageInputRef("a", "text")];
    forall j, r | 0 <= j < |stages| && r in stages[j].inputFrom
      ensures exists i | 0 <= i < j :: stages[i].stageId == r.stageId
    {
      assert stages[0].stageId == r.stageId;
    }
    assert LinkedAt(stages, 0) && LinkedAt(stages, 1);
    assert SECOND.inputFrom[0] in SECOND.inputFrom && Consumes(stages, 1, 0);
    assert Unconsumed(stages, 1);
  }

  lemma {:induction false} NeitherEverFree(order: seq<string>, k: nat)
    requires k <= |order| && Respects([TEXT_EDGE, STAGE_EDGE], order)
    ensures "a" !in order[..k] && "a-text-input" !in order[..k]
  {
    if k > 0 {
      NeitherEverFree(order, k - 1);
      assert TEXT_EDGE in [TEXT_EDGE, STAGE_EDGE] && STAGE_EDGE in [TEXT_EDGE, STAGE_EDGE];
      assert order[..k] == order[..k - 1] + [order[k - 1]];
    }
  }

  lemma MutualEdgesHaveNoOrder(g: WorkflowGraph)
    requires g.edges == [TEXT_EDGE, STAGE_EDGE]
    ensures !exists order :: IsOrder(g, order)
  {
    forall order ensures !IsOrder(g, order) {
      if Respects([TEXT_EDGE, STAGE_EDGE], order) {
        NeitherEverFree(order, |order|);
        assert order[..|order|] == order;
        assert "a" !in Members(order);
        assert TEXT_EDGE in g.edges;
      }
    }
  }

  /** Without fresh ids the guarantee fails: this accepted plan assembles into a cycle. */
  lemma CollidingIdsMakeACycle()
    ensures ResolverSound(COLLIDING_ENV) && Accepted(COLLIDING_PLAN)
      && !NoCollision(COLLIDING_ENV, COLLIDING_PLAN.stages)
    ensures Drafted(COLLIDING_ENV, COLLIDING_PLAN.stages, 2).Ok?
    ensures var g := Assemble(COLLIDING_ENV, COLLIDING_PLAN, Drafted(COLLIDING_ENV, COLLIDING_PLAN.stages, 2).value);
      !exists order :: IsOrder(g, order)
  {
    var stages := COLLIDING_PLAN.stages;
    CollidingPlanAccepted();
    CollidingFirst();
    CollidingSecond();
    assert stages == [FIRST, SECOND];
    assert Drafted(COLLIDING_ENV, stages, 1).Ok? && Drafted(COLLIDING_ENV, stages, 1).value.edges == [TEXT_EDGE] by {
      assert Drafted(COLLIDING_ENV, stages, 0) == Ok(Draft(map[], [], [], []));
    }
    assert Drafted(COLLIDING_ENV, stages, 2).Ok?;
    assert Drafted(COLLIDING_ENV, stages, 2).value.edges == [TEXT_EDGE, STAGE_EDGE];
    MutualEdgesHaveNoOrder(Assemble(COLLIDING_ENV, COLLIDING_PLAN, Drafted(COLLIDING_ENV, stages, 2).value));
    if NoCollision(COLLIDING_ENV, stages) {
      AssembledIsSound(COLLIDING_ENV, COLLIDING_PLAN);
    }
  }
}
