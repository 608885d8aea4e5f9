/** Columns and rows of a compiled plan (crates/compiler/src/graph_builder.rs, `apply_layout`). */
module Layout {
  import opened Ordering
  import opened Graph
  import opened Intent

  const COLUMN_WIDTH := 240
  const ROW_HEIGHT := 180

  datatype LayoutHint = LayoutHint(nodeId: string, pos: Point)

  /** The last of the first `n` stages that carries this id. */
  function LastWith(stages: seq<Stage>, n: nat, id: string): (r: Option<nat>)
    requires n <= |stages|
    ensures r.Some? ==> r.value < n && stages[r.value].stageId == id
  {
    if n == 0 then None
    else if stages[n - 1].stageId == id then Some(n - 1)
    else LastWith(stages, n - 1, id)
  }

  /** The column of stage `i`: one past the furthest of the stages it consumes. */
  function Depth(stages: seq<Stage>, i: nat): nat
    requires i < |stages|
    decreases i, 1, 0
  {
    DepthOver(stages, i, |stages[i].inputFrom|)
  }

  function DepthOver(stages: seq<Stage>, i: nat, k: nat): nat
    requires i < |stages| && k <= |stages[i].inputFrom|
    decreases i, 0, k
  {
    if k == 0 then 0 else
      match LastWith(stages, i, stages[i].inputFrom[k - 1].stageId)
      case None => DepthOver(stages, i, k - 1)
      case Some(j) => Max(DepthOver(stages, i, k - 1), Depth(stages, j) + 1)
  }

  function Roots(stages: seq<Stage>, i: nat): nat
    requires i <= |stages|
  {
    if i == 0 then 0 else Roots(stages, i - 1) + if stages[i - 1].inputFrom == [] then 1 else 0
  }

  /** The row of stage `i`: each root of a parallel plan opens one; the rest follow the
      highest row they consume from. */
  function Branch(p: IntentPlan, i: nat): nat
    requires i < |p.stages|
    decreases i, 1, 0
  {
    if p.stages[i].inputFrom == [] then
      if p.topology == Parallel then Roots(p.stages, i) else 0
    else BranchOver(p, i, |p.stages[i].inputFrom|)
  }

  function BranchOver(p: IntentPlan, i: nat, k: nat): nat
    requires i < |p.stages| && k <= |p.stages[i].inputFrom|
    decreases i, 0, k
  {
    if k == 0 then 0 else
      match LastWith(p.stages, i, p.stages[i].inputFrom[k - 1].stageId)
      case None => BranchOver(p, i, k - 1)
      case Some(j) => Max(BranchOver(p, i, k - 1), Branch(p, j))
  }

  function StagePos(p: IntentPlan, i: nat): Point
    requires i < |p.stages|
  {
    Point(Depth(p.stages, i) * COLUMN_WIDTH, Branch(p, i) * ROW_HEIGHT)
  }

  function Moved(nodes: map<string, GraphNode>, id: string, pos: Point): map<string, GraphNode> {
    if id in nodes then nodes[id := nodes[id].(pos := pos)] else nodes
  }

  function LaidOut(p: IntentPlan, nodes: map<string, GraphNode>, i: nat): map<string, GraphNode>
    requires i <= |p.stages|
  {
    if i == 0 then nodes else Moved(LaidOut(p, nodes, i - 1), p.stages[i - 1].stageId, StagePos(p, i - 1))
  }

  /** The maps hold the row and column of the last stage with each id. */
  ghost predicate Known(p: IntentPlan, i: nat, branchOf: map<string, nat>, depthOf: map<string, nat>)
    requires i <= |p.stages|
  {
    forall id ::
      match LastWith(p.stages, i, id)
      case None => id !in branchOf && id !in depthOf
      case Some(j) =>
        id in branchOf && id in depthOf && branchOf[id] == Branch(p, j) && depthOf[id] == Depth(p.stages, j)
  }

  /** The best row and column over the inputs of one stage. */
  method OverInputs(p: IntentPlan, i: nat, branchOf: map<string, nat>, depthOf: map<string, nat>)
    returns (branch: nat, depth: nat)
    requires i < |p.stages| && Known(p, i, branchOf, depthOf)
    ensures branch == BranchOver(p, i, |p.stages[i].inputFrom|)
    ensures depth == Depth(p.stages, i)
  {
    branch, depth := 0, 0;
    var inputs := p.stages[i].inputFrom;
    for k := 0 to |inputs|
      invariant branch == BranchOver(p, i, k)
      invariant depth == DepthOver(p.stages, i, k)
    {
      var id := inputs[k].stageId;
      ghost var j := LastWith(p.stages, i, id);
      if id in branchOf {
        branch := Max(branch, branchOf[id]);
      }
      if id in depthOf {
        depth := Max(depth, depthOf[id] + 1);
      }
    }
  }

  lemma KnownNext(p: IntentPlan, i: nat, branchOf: map<string, nat>, depthOf: map<string, nat>)
    requires i < |p.stages| && Known(p, i, branchOf, depthOf)
    ensures Known(p, i + 1,
      branchOf[p.stages[i].stageId := Branch(p, i)], depthOf[p.stages[i].stageId := Depth(p.stages, i)])
  {}

  lemma RootPlace(p: IntentPlan, i: nat)
    requires i < |p.stages| && p.stages[i].inputFrom == []
    ensures Depth(p.stages, i) == 0
    ensures Branch(p, i) == if p.topology == Parallel then Roots(p.stages, i) else 0
  {
    assert DepthOver(p.stages, i, 0) == 0;
  }

  method ApplyLayout(p: IntentPlan, nodes0: map<string, GraphNode>)
    returns (nodes: map<string, GraphNode>, hints: seq<LayoutHint>)
    ensures nodes == LaidOut(p, nodes0, |p.stages|)
    ensures |hints| == |p.stages|
    ensures forall i | 0 <= i < |hints| :: hints[i] == LayoutHint(p.stages[i].stageId, StagePos(p, i))
  {
    var branchOf: map<string, nat> := map[];
    var depthOf: map<string, nat> := map[];
    var nextBranch := 0;
    nodes, hints := nodes0, [];
    for i := 0 to |p.stages|
      invariant nodes == LaidOut(p, nodes0, i)
      invariant |hints| == i && forall j | 0 <= j < i :: hints[j] == LayoutHint(p.stages[j].stageId, StagePos(p, j))
      invariant p.topology == Parallel ==> nextBranch == Roots(p.stages, i)
      invariant Known(p, i, branchOf, depthOf)
    {
      var stage := p.stages[i];
      var branch, depth: nat := 0, 0;
      if stage.inputFrom == [] {
        RootPlace(p, i);
        if p.topology == Parallel {
          branch := nextBranch;
          nextBranch := nextBranch + 1;
        }
      } else {
        branch, depth := OverInputs(p, i, branchOf, depthOf);
      }
      assert branch == Branch(p, i) && depth == Depth(p.stages, i);
      KnownNext(p, i, branchOf, depthOf);
      branchOf := branchOf[stage.stageId := branch];
      depthOf := depthOf[stage.stageId := depth];
      var pos := Point(depth * COLUMN_WIDTH, branch * ROW_HEIGHT);
      assert pos == StagePos(p, i);
      nodes := Moved(nodes, stage.stageId, pos);
      hints := hints + [LayoutHint(stage.stageId, pos)];
    }
  }

  // ----- what the layout means -----

  lemma {:induction false} LastWithUnique(stages: seq<Stage>, n: nat, j: nat)
    requires StagesOrdered(stages) && j < n <= |stages|
    ensures LastWith(stages, n, stages[j].stageId) == Some(j)
  {
    if j < n - 1 { LastWithUnique(stages, n - 1, j); }
  }

  lemma {:induction false} DepthAbove(stages: seq<Stage>, i: nat, k: nat, m: nat, j: nat)
    requires i < |stages| && m < k <= |stages[i].inputFrom|
    requires LastWith(stages, i, stages[i].inputFrom[m].stageId) == Some(j)
    ensures Depth(stages, j) < DepthOver(stages, i, k)
    decreases k
  {
    if m < k - 1 { DepthAbove(stages, i, k - 1, m, j); }
  }

  /** Every consumed stage sits strictly to the left of its consumer. */
  lemma ConsumedIsLeft(stages: seq<Stage>, i: nat, j: nat)
    requires StagesOrdered(stages) && i < |stages| && j < |stages| && Consumes(stages, i, j)
    ensures j < i && Depth(stages, j) < Depth(stages, i)
  {
    var r :| r in stages[i].inputFrom && r.stageId == stages[j].stageId;
    var m :| 0 <= m < |stages[i].inputFrom| && stages[i].inputFrom[m] == r;
    ConsumersAreLater(stages, i, j);
    LastWithUnique(stages, i, j);
    DepthAbove(stages, i, |stages[i].inputFrom|, m, j);
  }

  /** A path of stages, each consuming the one before, that ends at stage `i`. */
  ghost predicate InputPath(stages: seq<Stage>, path: seq<nat>, i: nat) {
    && path != [] && path[|path| - 1] == i
    && (forall k | 0 <= k < |path| :: path[k] < |stages|)
    && (forall k | 0 < k < |path| :: Consumes(stages, path[k], path[k - 1]))
  }

  lemma {:induction false} PathsFit(stages: seq<Stage>, path: seq<nat>, i: nat)
    requires StagesOrdered(stages) && i < |stages| && InputPath(stages, path, i)
    ensures |path| - 1 <= Depth(stages, i)
    decreases |path|
  {
    if |path| > 1 {
      var rest := path[..|path| - 1];
      assert Consumes(stages, path[|path| - 1], path[|path| - 2]);
      ConsumedIsLeft(stages, i, path[|path| - 2]);
      PathsFit(stages, rest, path[|path| - 2]);
    }
  }

  /** A positive depth comes from one of the inputs. */
  lemma {:induction false} DeepestInput(stages: seq<Stage>, i: nat, k: nat)
    requires i < |stages| && k <= |stages[i].inputFrom| && DepthOver(stages, i, k) > 0
    ensures exists j | 0 <= j < i :: Consumes(stages, i, j) && DepthOver(stages, i, k) == Depth(stages, j) + 1
    decreases k
  {
    var r := stages[i].inputFrom[k - 1];
    var last := LastWith(stages, i, r.stageId);
    if last.Some? && DepthOver(stages, i, k) == Depth(stages, last.value) + 1 {
      assert r in stages[i].inputFrom && Consumes(stages, i, last.value);
    } else {
      DeepestInput(stages, i, k - 1);
    }
  }

  lemma {:induction false} LongestPathExists(stages: seq<Stage>, i: nat)
    requires i < |stages|
    ensures exists path :: InputPath(stages, path, i) && |path| - 1 == Depth(stages, i)
    decreases i
  {
    if Depth(stages, i) == 0 {
      assert InputPath(stages, [i], i);
    } else {
      DeepestInput(stages, i, |stages[i].inputFrom|);
      var j :| 0 <= j < i && Consumes(stages, i, j) && Depth(stages, i) == Depth(stages, j) + 1;
      LongestPathExists(stages, j);
      var path :| InputPath(stages, path, j) && |path| - 1 == Depth(stages, j);
      assert InputPath(stages, path + [i], i);
    }
  }

  /** The column of a stage is the length of the longest input path that reaches it. */
  lemma DepthIsLongestPath(stages: seq<Stage>, i: nat)
    requires StagesOrdered(stages) && i < |stages|
    ensures forall path :: InputPath(stages, path, i) ==> |path| - 1 <= Depth(stages, i)
    ensures exists path :: InputPath(stages, path, i) && |path| - 1 == Depth(stages, i)
  {
    forall path | InputPath(stages, path, i) ensures |path| - 1 <= Depth(stages, i) { PathsFit(stages, path, i); }
    LongestPathExists(stages, i);
  }

  lemma ChainInput(stages: seq<Stage>, i: nat, k: nat)
    requires StagesOrdered(stages) && SingleChain(stages) && 0 < i < |stages| && k < |stages[i].inputFrom|
    ensures LastWith(stages, i, stages[i].inputFrom[k].stageId) == Some(i - 1)
  {
    assert LinkedAt(stages, i);
    assert stages[i].inputFrom[k] in stages[i].inputFrom;
    LastWithUnique(stages, i, i - 1);
  }

  lemma {:induction false} ChainOver(p: IntentPlan, i: nat, k: nat)
    requires 0 < i < |p.stages| && k <= |p.stages[i].inputFrom|
    requires forall m | 0 <= m < k :: LastWith(p.stages, i, p.stages[i].inputFrom[m].stageId) == Some(i - 1)
    ensures DepthOver(p.stages, i, k) == (if k == 0 then 0 else Depth(p.stages, i - 1) + 1)
    ensures BranchOver(p, i, k) == (if k == 0 then 0 else Branch(p, i - 1))
    decreases k
  {
    if k > 0 { ChainOver(p, i, k - 1); }
  }

  /** Stage `i` of an accepted linear plan sits in column `i` of row 0. */
  lemma {:induction false} LinearLayout(p: IntentPlan, i: nat)
    requires StagesOrdered(p.stages) && SingleChain(p.stages) && p.topology == Linear && i < |p.stages|
    ensures Depth(p.stages, i) == i && Branch(p, i) == 0
    ensures StagePos(p, i) == Point(i * COLUMN_WIDTH, 0)
  {
    assert LinkedAt(p.stages, i);
    if i > 0 {
      LinearLayout(p, i - 1);
      forall m | 0 <= m < |p.stages[i].inputFrom| { ChainInput(p.stages, i, m); }
      ChainOver(p, i, |p.stages[i].inputFrom|);
    }
  }

  lemma {:induction false} RootsGrow(stages: seq<Stage>, i: nat, j: nat)
    requires i < j <= |stages| && stages[i].inputFrom == []
    ensures Roots(stages, i) < Roots(stages, j)
    decreases j
  {
    if i < j - 1 { RootsGrow(stages, i, j - 1); }
  }

  /** Two roots of a parallel plan share the first column but never a row. */
  lemma RootRowsDiffer(p: IntentPlan, i: nat, j: nat)
    requires p.topology == Parallel && i < j < |p.stages|
    requires p.stages[i].inputFrom == [] && p.stages[j].inputFrom == []
    ensures StagePos(p, i).y != StagePos(p, j).y
    ensures StagePos(p, i).x == 0 && StagePos(p, j).x == 0
  {
    RootsGrow(p.stages, i, j);
    RootPlace(p, i);
    RootPlace(p, j);
  }

  lemma {:induction false} RowAbove(p: IntentPlan, i: nat, k: nat, m: nat, j: nat)
    requires i < |p.stages| && m < k <= |p.stages[i].inputFrom|
    requires LastWith(p.stages, i, p.stages[i].inputFrom[m].stageId) == Some(j)
    ensures Branch(p, j) <= BranchOver(p, i, k)
    decreases k
  {
    if m < k - 1 { RowAbove(p, i, k - 1, m, j); }
  }

  lemma LastInput(p: IntentPlan, i: nat, k: nat) returns (j: nat)
    requires StagesOrdered(p.stages) && i < |p.stages| && k < |p.stages[i].inputFrom|
    ensures j < i && Consumes(p.stages, i, j) && LastWith(p.stages, i, p.stages[i].inputFrom[k].stageId) == Some(j)
  {
    var r := p.stages[i].inputFrom[k];
    assert r in p.stages[i].inputFrom;
    j :| 0 <= j < i && p.stages[j].stageId == r.stageId;
    LastWithUnique(p.stages, i, j);
  }

  lemma OneInputMore(p: IntentPlan, i: nat, k: nat, j: nat)
    requires i < |p.stages| && k < |p.stages[i].inputFrom|
    requires j < i && LastWith(p.stages, i, p.stages[i].inputFrom[k].stageId) == Some(j)
    ensures BranchOver(p, i, k + 1) == if BranchOver(p, i, k) > Branch(p, j) then BranchOver(p, i, k) else Branch(p, j)
    ensures BranchOver(p, i, 0) == 0
  {
  }

  lemma {:induction false} RowTaken(p: IntentPlan, i: nat, k: nat) returns (j: nat)
    requires StagesOrdered(p.stages) && i < |p.stages| && 0 < k <= |p.stages[i].inputFrom|
    ensures j < i && Consumes(p.stages, i, j) && BranchOver(p, i, k) == Branch(p, j)
    decreases k
  {
    j := LastInput(p, i, k - 1);
    OneInputMore(p, i, k - 1, j);
    if k > 1 {
      var before := RowTaken(p, i, k - 1);
      if Branch(p, before) > Branch(p, j) {
        j := before;
      }
    }
  }

  lemma RowNotAbove(p: IntentPlan, i: nat, j: nat)
    requires StagesOrdered(p.stages) && i < |p.stages| && j < |p.stages| && Consumes(p.stages, i, j)
    ensures Branch(p, j) <= BranchOver(p, i, |p.stages[i].inputFrom|)
  {
    var r :| r in p.stages[i].inputFrom && r.stageId == p.stages[j].stageId;
    var m :| 0 <= m < |p.stages[i].inputFrom| && p.stages[i].inputFrom[m] == r;
    ConsumersAreLater(p.stages, i, j);
    LastWithUnique(p.stages, i, j);
    RowAbove(p, i, |p.stages[i].inputFrom|, m, j);
  }

  /** A consumer lies in the row with the greatest number among the stages it consumes. */
  lemma RowIsOfAnInput(p: IntentPlan, i: nat)
    requires StagesOrdered(p.stages) && i < |p.stages| && p.stages[i].inputFrom != []
    ensures forall j | 0 <= j < |p.stages| && Consumes(p.stages, i, j) :: Branch(p, j) <= Branch(p, i)
    ensures exists j | 0 <= j < i :: Consumes(p.stages, i, j) && Branch(p, i) == Branch(p, j)
  {
    var taken := RowTaken(p, i, |p.stages[i].inputFrom|);
    forall j | 0 <= j < |p.stages| && Consumes(p.stages, i, j) { RowNotAbove(p, i, j); }
  }

  lemma {:induction false} RootsCounted(stages: seq<Stage>, n: nat)
    requires n <= |stages|
    ensures Roots(stages, n) == |set j: nat | j < n && stages[j].inputFrom == []|
  {
    var roots := set j: nat | j < n && stages[j].inputFrom == [];
    if n > 0 {
      RootsCounted(stages, n - 1);
      var before := set j: nat | j < n - 1 && stages[j].inputFrom == [];
      if stages[n - 1].inputFrom == [] {
        assert roots == before + {n - 1} && n - 1 !in before;
      } else {
        assert roots == before;
      }
    }
  }

  /** The roots of a parallel plan take the rows in turn; columns are 240 and rows 180 apart. */
  lemma RootsTakeRowsInTurn(p: IntentPlan, i: nat)
    requires i < |p.stages|
    ensures StagePos(p, i) == Point(240 * Depth(p.stages, i), 180 * Branch(p, i))
    ensures p.stages[i].inputFrom == [] ==> Depth(p.stages, i) == 0
    ensures p.stages[i].inputFrom == [] && p.topology == Linear ==> Branch(p, i) == 0
    ensures p.stages[i].inputFrom == [] && p.topology == Parallel ==>
      Branch(p, i) == |set j: nat | j < i && p.stages[j].inputFrom == []|
  {
    RootsCounted(p.stages, i);
    if p.stages[i].inputFrom == [] { RootPlace(p, i); }
  }

  lemma MovedMeaning(nodes: map<string, GraphNode>, id: string, pos: Point)
    ensures Moved(nodes, id, pos).Keys == nodes.Keys
    ensures forall x | x in nodes :: Moved(nodes, id, pos)[x] == if x == id then nodes[x].(pos := pos) else nodes[x]
  {
  }

  /** Laying out moves the plan's stages and nothing else. */
  lemma {:induction false} LaidOutMeaning(p: IntentPlan, nodes: map<string, GraphNode>, i: nat)
    requires StagesOrdered(p.stages) && i <= |p.stages|
    ensures LaidOut(p, nodes, i).Keys == nodes.Keys
    ensures forall j | 0 <= j < i && p.stages[j].stageId in nodes ::
      LaidOut(p, nodes, i)[p.stages[j].stageId] == nodes[p.stages[j].stageId].(pos := StagePos(p, j))
    ensures forall id | id in nodes && (forall j | 0 <= j < i :: p.stages[j].stageId != id) ::
      LaidOut(p, nodes, i)[id] == nodes[id]
  {
    if i > 0 {
      LaidOutMeaning(p, nodes, i - 1);
      MovedMeaning(LaidOut(p, nodes, i - 1), p.stages[i - 1].stageId, StagePos(p, i - 1));
      assert forall j | 0 <= j < i - 1 :: p.stages[j].stageId != p.stages[i - 1].stageId;
    }
  }
}
