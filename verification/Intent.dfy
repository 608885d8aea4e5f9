/** The staged plan an agent submits, and its structural validation
    (crates/compiler/src/intent.rs). */
module Intent {
  import opened Json
  import opened Ordering
  import opened Seqs

  datatype Topology = Linear | Parallel
  datatype StageInputRef = StageInputRef(stageId: string, output: string)
  datatype Stage = Stage(
    stageId: string,
    capabilityId: string,
    requestedModel: Option<string>,
    inputFrom: seq<StageInputRef>,
    params: Value)
  datatype IntentPlan = IntentPlan(
    intentVersion: string,
    topology: Topology,
    stages: seq<Stage>,
    outputStageIds: seq<string>,
    assumptions: seq<string>)

  const INTENT_VERSION := "1"
  const MAX_STAGE_ID := 64

  datatype PlanError =
    | UnsupportedVersion(version: string)
    | NoStages
    | NoOutputs
    | InvalidStageId(id: string)
    | DuplicateStageId(id: string)
    | ParamsNotObject(id: string)
    | NotEarlier(id: string, input: string)
    | UnknownOutput(id: string)
    | OutputsMismatch(declared: seq<string>, actual: seq<string>)
    | FirstConsumes(id: string)
    | NotPrevious(id: string, previous: string)
    | ManySinks(sinks: seq<string>)

  predicate LowerCase(ch: char) { 'a' <= ch <= 'z' }
  predicate IdChar(ch: char) { LowerCase(ch) || '0' <= ch <= '9' || ch == '_' || ch == '-' }

  predicate ValidStageId(id: string) {
    id != [] && LowerCase(id[0]) && |id| <= MAX_STAGE_ID && forall i | 1 <= i < |id| :: IdChar(id[i])
  }

  function Ids(stages: seq<Stage>): seq<string> {
    seq(|stages|, i requires 0 <= i < |stages| => stages[i].stageId)
  }

  function InputIds(inputs: seq<StageInputRef>): seq<string> {
    seq(|inputs|, i requires 0 <= i < |inputs| => inputs[i].stageId)
  }

  function Referenced(stages: seq<Stage>): seq<string> {
    if stages == [] then [] else InputIds(stages[0].inputFrom) + Referenced(stages[1..])
  }

  function Unlisted(xs: seq<string>): string -> bool { x => x !in xs }

  /** Stages no other stage consumes, in plan order. */
  function Sinks(p: IntentPlan): seq<string> {
    Filter(Ids(p.stages), Unlisted(Referenced(p.stages)))
  }

  function Dedup(xs: seq<string>): seq<string> {
    if |xs| <= 1 then xs
    else if xs[0] == xs[1] then Dedup(xs[1..])
    else [xs[0]] + Dedup(xs[1..])
  }

  // ----- the verdict, check by check -----

  function InputsDefect(seen: seq<string>, stage: Stage, k: nat): Option<PlanError>
    requires k <= |stage.inputFrom|
    decreases |stage.inputFrom| - k
  {
    if k == |stage.inputFrom| then None
    else if stage.inputFrom[k].stageId !in seen then Some(NotEarlier(stage.stageId, stage.inputFrom[k].stageId))
    else InputsDefect(seen, stage, k + 1)
  }

  function StageDefect(seen: seq<string>, stage: Stage): Option<PlanError> {
    if !ValidStageId(stage.stageId) then Some(InvalidStageId(stage.stageId))
    else if stage.stageId in seen then Some(DuplicateStageId(stage.stageId))
    else if !stage.params.Obj? then Some(ParamsNotObject(stage.stageId))
    else InputsDefect(seen, stage, 0)
  }

  function StagesDefect(stages: seq<Stage>, i: nat): Option<PlanError>
    requires i <= |stages|
    decreases |stages| - i
  {
    if i == |stages| then None else
      var here := StageDefect(Ids(stages)[..i], stages[i]);
      if here.Some? then here else StagesDefect(stages, i + 1)
  }

  function OutputsDefect(ids: seq<string>, outputs: seq<string>, i: nat): Option<PlanError>
    requires i <= |outputs|
    decreases |outputs| - i
  {
    if i == |outputs| then None
    else if outputs[i] !in ids then Some(UnknownOutput(outputs[i]))
    else OutputsDefect(ids, outputs, i + 1)
  }

  function LinearStageDefect(stages: seq<Stage>, i: nat): Option<PlanError>
    requires i < |stages|
  {
    var stage := stages[i];
    if i == 0 then
      if stage.inputFrom != [] then Some(FirstConsumes(stage.stageId)) else None
    else
      var previous := stages[i - 1].stageId;
      if stage.inputFrom == [] || exists r | r in stage.inputFrom :: r.stageId != previous
      then Some(NotPrevious(stage.stageId, previous)) else None
  }

  function LinearDefect(stages: seq<Stage>, i: nat): Option<PlanError>
    requires i <= |stages|
    decreases |stages| - i
  {
    if i == |stages| then None else
      var here := LinearStageDefect(stages, i);
      if here.Some? then here else LinearDefect(stages, i + 1)
  }

  function TopologyDefect(p: IntentPlan): Option<PlanError> {
    var sinks := Sinks(p);
    var declared := Dedup(Sort(p.outputStageIds, StrLeq));
    var actual := Sort(sinks, StrLeq);
    if declared != actual then Some(OutputsMismatch(declared, actual))
    else if p.topology == Parallel then None
    else
      var chain := LinearDefect(p.stages, 0);
      if chain.Some? then chain
      else if |sinks| != 1 then Some(ManySinks(sinks)) else None
  }

  function PlanDefect(p: IntentPlan): Option<PlanError> {
    if p.intentVersion != INTENT_VERSION then Some(UnsupportedVersion(p.intentVersion))
    else if p.stages == [] then Some(NoStages)
    else if p.outputStageIds == [] then Some(NoOutputs)
    else
      var stage := StagesDefect(p.stages, 0);
      if stage.Some? then stage else
        var output := OutputsDefect(Ids(p.stages), p.outputStageIds, 0);
        if output.Some? then output else TopologyDefect(p)
  }

  // ----- the loops -----

  method ValidateStage(seen: seq<string>, stage: Stage) returns (r: Option<PlanError>)
    ensures r == StageDefect(seen, stage)
  {
    if !ValidStageId(stage.stageId) {
      return Some(InvalidStageId(stage.stageId));
    }
    if stage.stageId in seen {
      return Some(DuplicateStageId(stage.stageId));
    }
    if !stage.params.Obj? {
      return Some(ParamsNotObject(stage.stageId));
    }
    for k := 0 to |stage.inputFrom|
      invariant InputsDefect(seen, stage, 0) == InputsDefect(seen, stage, k)
    {
      if stage.inputFrom[k].stageId !in seen {
        return Some(NotEarlier(stage.stageId, stage.inputFrom[k].stageId));
      }
    }
    return None;
  }

  method ValidateTopology(p: IntentPlan) returns (r: Option<PlanError>)
    ensures r == TopologyDefect(p)
  {
    var sinks := Sinks(p);
    var declared := Dedup(Sort(p.outputStageIds, StrLeq));
    var actual := Sort(sinks, StrLeq);
    if declared != actual {
      return Some(OutputsMismatch(declared, actual));
    }
    if p.topology == Linear {
      for i := 0 to |p.stages|
        invariant LinearDefect(p.stages, 0) == LinearDefect(p.stages, i)
      {
        var stage := p.stages[i];
        if i == 0 {
          if stage.inputFrom != [] {
            return Some(FirstConsumes(stage.stageId));
          }
        } else {
          var previous := p.stages[i - 1].stageId;
          if stage.inputFrom == [] || exists r | r in stage.inputFrom :: r.stageId != previous {
            return Some(NotPrevious(stage.stageId, previous));
          }
        }
      }
      if |sinks| != 1 {
        return Some(ManySinks(sinks));
      }
    }
    return None;
  }

  method Validate(p: IntentPlan) returns (r: Option<PlanError>)
    ensures r == PlanDefect(p)
  {
    if p.intentVersion != INTENT_VERSION {
      return Some(UnsupportedVersion(p.intentVersion));
    }
    if p.stages == [] {
      return Some(NoStages);
    }
    if p.outputStageIds == [] {
      return Some(NoOutputs);
    }
    var seen: seq<string> := [];
    for i := 0 to |p.stages|
      invariant seen == Ids(p.stages)[..i]
      invariant StagesDefect(p.stages, 0) == StagesDefect(p.stages, i)
    {
      var defect := ValidateStage(seen, p.stages[i]);
      if defect.Some? {
        return defect;
      }
      seen := seen + [p.stages[i].stageId];
    }
    assert seen == Ids(p.stages);
    for i := 0 to |p.outputStageIds|
      invariant OutputsDefect(seen, p.outputStageIds, 0) == OutputsDefect(seen, p.outputStageIds, i)
    {
      if p.outputStageIds[i] !in seen {
        return Some(UnknownOutput(p.outputStageIds[i]));
      }
    }
    r := ValidateTopology(p);
  }

  // ----- what acceptance means -----

  /** Stage `j` takes an output of stage `i`. */
  predicate Consumes(stages: seq<Stage>, j: nat, i: nat)
    requires i < |stages| && j < |stages|
  {
    exists r | r in stages[j].inputFrom :: r.stageId == stages[i].stageId
  }

  predicate StagesOrdered(stages: seq<Stage>) {
    && (forall i | 0 <= i < |stages| :: ValidStageId(stages[i].stageId) && stages[i].params.Obj?)
    && (forall i, j | 0 <= i < j < |stages| :: stages[i].stageId != stages[j].stageId)
    && (forall j, r | 0 <= j < |stages| && r in stages[j].inputFrom ::
          exists i | 0 <= i < j :: stages[i].stageId == r.stageId)
  }

  predicate Unconsumed(stages: seq<Stage>, i: nat)
    requires i < |stages|
  {
    forall j | 0 <= j < |stages| :: !Consumes(stages, j, i)
  }

  ghost predicate OutputsAreSinks(p: IntentPlan) {
    && (forall i | 0 <= i < |p.stages| :: p.stages[i].stageId in p.outputStageIds <==> Unconsumed(p.stages, i))
    && (forall id | id in p.outputStageIds :: exists i | 0 <= i < |p.stages| :: p.stages[i].stageId == id)
  }

  predicate LinkedAt(stages: seq<Stage>, i: nat)
    requires i < |stages|
  {
    if i == 0 then stages[i].inputFrom == []
    else stages[i].inputFrom != [] && forall r | r in stages[i].inputFrom :: r.stageId == stages[i - 1].stageId
  }

  /** Every stage after the first takes outputs of its predecessor and of nothing else. */
  predicate SingleChain(stages: seq<Stage>) {
    forall i | 0 <= i < |stages| :: LinkedAt(stages, i)
  }

  ghost predicate Accepted(p: IntentPlan) {
    && p.intentVersion == INTENT_VERSION
    && p.stages != []
    && StagesOrdered(p.stages)
    && OutputsAreSinks(p)
    && (p.topology == Linear ==> SingleChain(p.stages))
  }

  lemma {:induction false} InputsDefectNone(seen: seq<string>, stage: Stage, k: nat)
    requires k <= |stage.inputFrom|
    ensures InputsDefect(seen, stage, k) == None <==>
      forall m | k <= m < |stage.inputFrom| :: stage.inputFrom[m].stageId in seen
    decreases |stage.inputFrom| - k
  {
    if k < |stage.inputFrom| { InputsDefectNone(seen, stage, k + 1); }
  }

  lemma {:induction false} StagesDefectNone(stages: seq<Stage>, i: nat)
    requires i <= |stages|
    ensures StagesDefect(stages, i) == None <==>
      forall m | i <= m < |stages| :: StageDefect(Ids(stages)[..m], stages[m]) == None
    decreases |stages| - i
  {
    if i < |stages| { StagesDefectNone(stages, i + 1); }
  }

  lemma {:induction false} OutputsDefectNone(ids: seq<string>, outputs: seq<string>, i: nat)
    requires i <= |outputs|
    ensures OutputsDefect(ids, outputs, i) == None <==> forall m | i <= m < |outputs| :: outputs[m] in ids
    decreases |outputs| - i
  {
    if i < |outputs| { OutputsDefectNone(ids, outputs, i + 1); }
  }

  lemma {:induction false} LinearDefectNone(stages: seq<Stage>, i: nat)
    requires i <= |stages|
    ensures LinearDefect(stages, i) == None <==> forall m | i <= m < |stages| :: LinearStageDefect(stages, m) == None
    decreases |stages| - i
  {
    if i < |stages| { LinearDefectNone(stages, i + 1); }
  }

  lemma SeenBefore(stages: seq<Stage>, m: nat, id: string)
    requires m <= |stages|
    ensures id in Ids(stages)[..m] <==> exists i | 0 <= i < m :: stages[i].stageId == id
  {
    if id in Ids(stages)[..m] {
      var i :| 0 <= i < m && Ids(stages)[..m][i] == id;
      assert stages[i].stageId == id;
    }
    if i :| 0 <= i < m && stages[i].stageId == id {
      assert Ids(stages)[..m][i] == id;
    }
  }

  lemma StageDefectNone(stages: seq<Stage>, m: nat)
    requires m < |stages|
    ensures StageDefect(Ids(stages)[..m], stages[m]) == None <==>
      && ValidStageId(stages[m].stageId) && stages[m].params.Obj?
      && (forall i | 0 <= i < m :: stages[i].stageId != stages[m].stageId)
      && (forall r | r in stages[m].inputFrom :: exists i | 0 <= i < m :: stages[i].stageId == r.stageId)
  {
    var seen := Ids(stages)[..m];
    InputsDefectNone(seen, stages[m], 0);
    SeenBefore(stages, m, stages[m].stageId);
    forall r | r in stages[m].inputFrom
      ensures r.stageId in seen <==> exists i | 0 <= i < m :: stages[i].stageId == r.stageId
    {
      SeenBefore(stages, m, r.stageId);
    }
    forall k | 0 <= k < |stages[m].inputFrom| ensures stages[m].inputFrom[k] in stages[m].inputFrom {}
  }

  lemma StagesDefectMeaning(stages: seq<Stage>)
    ensures StagesDefect(stages, 0) == None <==> StagesOrdered(stages)
  {
    StagesDefectNone(stages, 0);
    forall m | 0 <= m < |stages| { StageDefectNone(stages, m); }
  }

  lemma {:induction false} ReferencedIn(stages: seq<Stage>, id: string)
    ensures id in Referenced(stages) <==>
      exists j, r :: 0 <= j < |stages| && r in stages[j].inputFrom && r.stageId == id
  {
    if stages != [] {
      ReferencedIn(stages[1..], id);
      var here := InputIds(stages[0].inputFrom);
      if id in here {
        var k :| 0 <= k < |here| && here[k] == id;
        assert stages[0].inputFrom[k] in stages[0].inputFrom && stages[0].inputFrom[k].stageId == id;
      }
      if j, r :| 0 <= j < |stages| && r in stages[j].inputFrom && r.stageId == id {
        if j == 0 {
          var k :| 0 <= k < |stages[0].inputFrom| && stages[0].inputFrom[k] == r;
          assert here[k] == id;
        } else {
          assert r in stages[1..][j - 1].inputFrom;
        }
      }
      if id in Referenced(stages[1..]) {
        var j, r :| 0 <= j < |stages[1..]| && r in stages[1..][j].inputFrom && r.stageId == id;
        assert r in stages[j + 1].inputFrom;
      }
    }
  }

  lemma SinkMeaning(p: IntentPlan, i: nat)
    requires i < |p.stages|
    ensures p.stages[i].stageId in Sinks(p) <==> Unconsumed(p.stages, i)
  {
    var id := p.stages[i].stageId;
    ReferencedIn(p.stages, id);
    assert Ids(p.stages)[i] == id;
    if id in Referenced(p.stages) {
      var j, r :| 0 <= j < |p.stages| && r in p.stages[j].inputFrom && r.stageId == id;
      assert Consumes(p.stages, j, i);
    } else {
      forall j | 0 <= j < |p.stages| ensures !Consumes(p.stages, j, i) {}
    }
  }

  // ----- sorted, deduplicated lists are canonical -----

  lemma StrLeqPreorder()
    ensures Preorder(StrLeq)
  {
    forall a, b ensures StrLeq(a, b) || StrLeq(b, a) { StrLeqTotal(a, b); }
    forall a, b, c | StrLeq(a, b) && StrLeq(b, c) ensures StrLeq(a, c) { StrLeqTransitive(a, b, c); }
  }

  lemma {:induction false} DedupIncreases(xs: seq<string>)
    requires SortedBy(xs, StrLeq)
    ensures Increasing(Dedup(xs))
    ensures forall x :: x in Dedup(xs) <==> x in xs
  {
    if |xs| > 1 {
      DedupIncreases(xs[1..]);
      assert forall x :: x in xs <==> x == xs[0] || x in xs[1..];
      if xs[0] != xs[1] {
        HeadIsLeast(xs);
        IncreasingCons(xs[0], Dedup(xs[1..]));
      }
    }
  }

  lemma HeadIsLeast(xs: seq<string>)
    requires SortedBy(xs, StrLeq) && |xs| > 1 && xs[0] != xs[1]
    ensures forall x | x in xs[1..] :: StrLeq(xs[0], x) && x != xs[0]
  {
    forall x | x in xs[1..] ensures StrLeq(xs[0], x) && x != xs[0] {
      var k :| 1 <= k < |xs| && xs[k] == x;
      if x == xs[0] { StrLeqAntisymmetric(xs[0], xs[1]); }
    }
  }

  lemma UniqueSortIncreases(xs: seq<string>)
    requires SortedBy(xs, StrLeq) && Unique(xs)
    ensures Increasing(xs)
  {
    UniqueDistinct(xs);
  }

  /** Comparing sorted lists compares sets: the declared side is deduplicated and the
      actual side has no duplicates to begin with. */
  lemma SortedComparison(declared: seq<string>, actual: seq<string>)
    requires Unique(actual)
    ensures Dedup(Sort(declared, StrLeq)) == Sort(actual, StrLeq) <==> forall x :: x in declared <==> x in actual
  {
    StrLeqPreorder();
    SortSorts(declared, StrLeq);
    SortSorts(actual, StrLeq);
    DedupIncreases(Sort(declared, StrLeq));
    assert Unique(Sort(actual, StrLeq));
    UniqueSortIncreases(Sort(actual, StrLeq));
    if forall x :: x in declared <==> x in actual {
      IncreasingUnique(Dedup(Sort(declared, StrLeq)), Sort(actual, StrLeq));
    }
  }

  lemma SinksUnique(p: IntentPlan)
    requires StagesOrdered(p.stages)
    ensures Unique(Sinks(p))
  {
    UniqueDistinct(Ids(p.stages));
    forall id | id in Sinks(p) ensures multiset(Sinks(p))[id] == 1 {
      FilterCount(Ids(p.stages), Unlisted(Referenced(p.stages)), id);
    }
  }

  lemma IdMeaning(stages: seq<Stage>, id: string)
    ensures id in Ids(stages) <==> exists i | 0 <= i < |stages| :: stages[i].stageId == id
  {
    SeenBefore(stages, |stages|, id);
    assert Ids(stages)[..|stages|] == Ids(stages);
  }

  lemma SinksMeaning(p: IntentPlan, id: string)
    requires StagesOrdered(p.stages)
    ensures id in Sinks(p) <==> exists i | 0 <= i < |p.stages| :: p.stages[i].stageId == id && Unconsumed(p.stages, i)
  {
    IdMeaning(p.stages, id);
    forall i | 0 <= i < |p.stages| { SinkMeaning(p, i); }
  }

  lemma OutputsMeaning(p: IntentPlan)
    requires StagesOrdered(p.stages)
    ensures OutputsDefect(Ids(p.stages), p.outputStageIds, 0) == None
      && Dedup(Sort(p.outputStageIds, StrLeq)) == Sort(Sinks(p), StrLeq)
      <==> OutputsAreSinks(p)
  {
    var outputs := p.outputStageIds;
    OutputsDefectNone(Ids(p.stages), outputs, 0);
    assert (forall m | 0 <= m < |outputs| :: outputs[m] in Ids(p.stages)) <==>
      (forall id | id in outputs :: id in Ids(p.stages));
    SinksUnique(p);
    SortedComparison(outputs, Sinks(p));
    SameAsSinks(p);
  }

  lemma SameAsSinks(p: IntentPlan)
    requires StagesOrdered(p.stages)
    ensures (forall id | id in p.outputStageIds :: id in Ids(p.stages))
      && (forall id :: id in p.outputStageIds <==> id in Sinks(p))
      <==> OutputsAreSinks(p)
  {
    forall id { IdMeaning(p.stages, id); }
    forall i | 0 <= i < |p.stages| { SinkMeaning(p, i); }
    forall id | id in Sinks(p) ensures exists i | 0 <= i < |p.stages| :: p.stages[i].stageId == id {
      SinksMeaning(p, id);
    }
  }

  lemma LastIsUnconsumed(stages: seq<Stage>)
    requires stages != [] && StagesOrdered(stages)
    ensures Unconsumed(stages, |stages| - 1)
  {}

  lemma NextConsumes(stages: seq<Stage>, i: nat)
    requires i + 1 < |stages| && SingleChain(stages)
    ensures Consumes(stages, i + 1, i) && !Unconsumed(stages, i)
  {
    assert LinkedAt(stages, i + 1);
    var r := stages[i + 1].inputFrom[0];
    assert r in stages[i + 1].inputFrom && r.stageId == stages[i].stageId;
  }

  /** The last stage of a chain is its only sink, so the closing count test of the
      linear branch never fires. */
  lemma ChainHasOneSink(p: IntentPlan)
    requires p.stages != [] && StagesOrdered(p.stages) && SingleChain(p.stages)
    ensures Sinks(p) == [p.stages[|p.stages| - 1].stageId]
    ensures forall i | 0 <= i < |p.stages| - 1 :: !Unconsumed(p.stages, i)
  {
    var n := |p.stages|;
    forall i | 0 <= i < n - 1 ensures !Unconsumed(p.stages, i) {
      NextConsumes(p.stages, i);
    }
    LastIsUnconsumed(p.stages);
    var last := p.stages[n - 1].stageId;
    forall id ensures id in Sinks(p) <==> id == last {
      SinksMeaning(p, id);
    }
    SinksUnique(p);
    OnlyElement(Sinks(p), last);
  }

  lemma OnlyElement(xs: seq<string>, x: string)
    requires Unique(xs) && x in xs && forall y | y in xs :: y == x
    ensures xs == [x]
  {
    AllEqualCount(xs, x);
    assert xs[0] in xs;
  }

  lemma LinearMeaning(stages: seq<Stage>)
    ensures LinearDefect(stages, 0) == None <==> SingleChain(stages)
  {
    LinearDefectNone(stages, 0);
    forall m | 0 <= m < |stages| ensures LinearStageDefect(stages, m) == None <==> LinkedAt(stages, m) {}
  }

  /** The validator accepts exactly the ordered plans whose outputs are the sinks and
      which, if linear, form one chain. */
  lemma AcceptsExactly(p: IntentPlan)
    ensures PlanDefect(p) == None <==> Accepted(p)
  {
    StagesDefectMeaning(p.stages);
    LinearMeaning(p.stages);
    if p.stages != [] && StagesOrdered(p.stages) {
      OutputsMeaning(p);
      LastIsUnconsumed(p.stages);
      if SingleChain(p.stages) { ChainHasOneSink(p); }
    }
  }

  /** The "exactly one stage" error of the linear branch is dead code. */
  lemma ManySinksNeverReported(p: IntentPlan)
    ensures PlanDefect(p).Some? ==> !PlanDefect(p).value.ManySinks?
  {
    StagesDefectMeaning(p.stages);
    LinearMeaning(p.stages);
    StageErrorsOnly(p.stages, 0);
    OutputErrorsOnly(Ids(p.stages), p.outputStageIds, 0);
    LinearErrorsOnly(p.stages, 0);
    if p.stages != [] && StagesOrdered(p.stages) && SingleChain(p.stages) { ChainHasOneSink(p); }
  }

  lemma {:induction false} StageErrorsOnly(stages: seq<Stage>, i: nat)
    requires i <= |stages|
    ensures StagesDefect(stages, i).Some? ==> !StagesDefect(stages, i).value.ManySinks?
    decreases |stages| - i
  {
    if i < |stages| {
      InputErrorsOnly(Ids(stages)[..i], stages[i], 0);
      StageErrorsOnly(stages, i + 1);
    }
  }

  lemma {:induction false} InputErrorsOnly(seen: seq<string>, stage: Stage, k: nat)
    requires k <= |stage.inputFrom|
    ensures InputsDefect(seen, stage, k).Some? ==> InputsDefect(seen, stage, k).value.NotEarlier?
    decreases |stage.inputFrom| - k
  {
    if k < |stage.inputFrom| { InputErrorsOnly(seen, stage, k + 1); }
  }

  lemma {:induction false} OutputErrorsOnly(ids: seq<string>, outputs: seq<string>, i: nat)
    requires i <= |outputs|
    ensures OutputsDefect(ids, outputs, i).Some? ==> OutputsDefect(ids, outputs, i).value.UnknownOutput?
    decreases |outputs| - i
  {
    if i < |outputs| { OutputErrorsOnly(ids, outputs, i + 1); }
  }

  lemma {:induction false} LinearErrorsOnly(stages: seq<Stage>, i: nat)
    requires i <= |stages|
    ensures LinearDefect(stages, i).Some? ==> !LinearDefect(stages, i).value.ManySinks?
    decreases |stages| - i
  {
    if i < |stages| { LinearErrorsOnly(stages, i + 1); }
  }

  /** A chain of consumers from stage `i` to a declared output. */
  ghost predicate ConsumerChain(p: IntentPlan, i: nat, path: seq<nat>) {
    && path != [] && path[0] == i
    && (forall k | 0 <= k < |path| :: path[k] < |p.stages|)
    && (forall k | 0 <= k < |path| - 1 :: path[k] < path[k + 1] && Consumes(p.stages, path[k + 1], path[k]))
    && p.stages[path[|path| - 1]].stageId in p.outputStageIds
  }

  lemma {:induction false} EveryStageReachesAnOutput(p: IntentPlan, i: nat)
    requires Accepted(p) && i < |p.stages|
    ensures exists path :: ConsumerChain(p, i, path)
    decreases |p.stages| - i
  {
    if Unconsumed(p.stages, i) {
      assert ConsumerChain(p, i, [i]);
    } else {
      var j :| 0 <= j < |p.stages| && Consumes(p.stages, j, i);
      ConsumersAreLater(p.stages, j, i);
      EveryStageReachesAnOutput(p, j);
      var rest :| ConsumerChain(p, j, rest);
      ExtendChain(p, i, j, rest);
    }
  }

  lemma ExtendChain(p: IntentPlan, i: nat, j: nat, rest: seq<nat>)
    requires i < j < |p.stages| && Consumes(p.stages, j, i) && ConsumerChain(p, j, rest)
    ensures ConsumerChain(p, i, [i] + rest)
  {
    var path := [i] + rest;
    forall k | 0 <= k < |path| - 1 ensures path[k] < path[k + 1] && Consumes(p.stages, path[k + 1], path[k]) {
      if k > 0 { assert path[k] == rest[k - 1] && path[k + 1] == rest[k]; }
    }
  }

  lemma ConsumersAreLater(stages: seq<Stage>, j: nat, i: nat)
    requires StagesOrdered(stages) && i < |stages| && j < |stages| && Consumes(stages, j, i)
    ensures i < j
  {
    var r :| r in stages[j].inputFrom && r.stageId == stages[i].stageId;
    var k :| 0 <= k < j && stages[k].stageId == r.stageId;
    assert k == i;
  }
}
