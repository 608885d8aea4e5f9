/** Kahn's algorithm as the graph service runs it (crates/graph/src/lib.rs, `topological_order`). */
module Topology {
  import opened Ordering
  import opened Graph

  /** Edges into `n` whose source is not done. */
  function Pending(es: seq<GraphEdge>, n: string, done: set<string>): nat {
    if es == [] then 0 else
      var e := es[|es| - 1];
      Pending(es[..|es| - 1], n, done) + if e.to.node == n && e.from.node !in done then 1 else 0
  }

  /** The targets of `n`, once per edge, in edge order. */
  function Targets(es: seq<GraphEdge>, n: string): seq<string> {
    if es == [] then [] else
      var e := es[|es| - 1];
      Targets(es[..|es| - 1], n) + if e.from.node == n then [e.to.node] else []
  }

  function PendingCounts(g: WorkflowGraph, es: seq<GraphEdge>, done: set<string>): map<string, int> {
    map n | n in g.nodes :: Pending(es, n, done)
  }

  function Members(xs: seq<string>): set<string> { set x | x in xs }

  lemma {:induction false} PendingZero(es: seq<GraphEdge>, n: string, done: set<string>)
    ensures Pending(es, n, done) == 0 <==> forall e | e in es && e.to.node == n :: e.from.node in done
  {
    if es != [] {
      var last := es[|es| - 1];
      PendingZero(es[..|es| - 1], n, done);
      assert es == es[..|es| - 1] + [last];
    }
  }

  lemma {:induction false} PendingAfter(es: seq<GraphEdge>, n: string, done: set<string>, node: string)
    requires node !in done
    ensures Pending(es, n, done) == Pending(es, n, done + {node}) + multiset(Targets(es, node))[n]
  {
    if es != [] {
      PendingAfter(es[..|es| - 1], n, done, node);
    }
  }

  lemma {:induction false} TargetsAreTargets(es: seq<GraphEdge>, n: string)
    ensures forall x | x in Targets(es, n) :: exists e :: e in es && e.to.node == x
  {
    if es != [] {
      var last := es[|es| - 1];
      TargetsAreTargets(es[..|es| - 1], n);
      assert es == es[..|es| - 1] + [last];
      forall x | x in Targets(es, n) ensures exists e :: e in es && e.to.node == x {
        if x in Targets(es[..|es| - 1], n) {
          var e :| e in es[..|es| - 1] && e.to.node == x;
          assert e in es;
        } else {
          assert last in es && last.to.node == x;
        }
      }
    }
  }

  /** Sources come before targets, and nothing is listed twice. */
  ghost predicate Respects(es: seq<GraphEdge>, order: seq<string>) {
    && (forall i, j | 0 <= i < j < |order| :: order[i] != order[j])
    && (forall k, e | 0 <= k < |order| && e in es && e.to.node == order[k] :: e.from.node in order[..k])
  }

  ghost predicate IsOrder(g: WorkflowGraph, order: seq<string>) {
    && Members(order) == g.nodes.Keys
    && Respects(g.edges, order)
    && forall e | e in g.edges :: e.to.node in g.nodes
  }

  /** All sources of `n` are already listed. */
  ghost predicate Free(es: seq<GraphEdge>, n: string, done: set<string>) {
    forall e | e in es && e.to.node == n :: e.from.node in done
  }

  /** Each entry is the least node that was free to come next. */
  ghost predicate LeastFirst(g: WorkflowGraph, order: seq<string>) {
    forall k, n | 0 <= k < |order| && n in g.nodes && n !in order[..k] && Free(g.edges, n, Members(order[..k])) ::
      StrLeq(order[k], n)
  }

  lemma OneMoreEdge(es: seq<GraphEdge>, i: nat)
    requires i < |es|
    ensures forall n, done ::
      Pending(es[..i + 1], n, done)
      == Pending(es[..i], n, done) + if es[i].to.node == n && es[i].from.node !in done then 1 else 0
    ensures forall n ::
      Targets(es[..i + 1], n)
      == if es[i].from.node == n then Targets(es[..i], n) + [es[i].to.node] else Targets(es[..i], n)
  {
    assert es[..i + 1][..i] == es[..i];
    assert forall n :: Targets(es[..i], n) + [] == Targets(es[..i], n);
  }

  lemma CountOne(g: WorkflowGraph, i: nat)
    requires i < |g.edges| && g.edges[i].to.node in g.nodes
    ensures var before, n := PendingCounts(g, g.edges[..i], {}), g.edges[i].to.node;
      PendingCounts(g, g.edges[..i + 1], {}) == before[n := before[n] + 1]
  {
    OneMoreEdge(g.edges, i);
  }

  ghost predicate ListsTargets(es: seq<GraphEdge>, outgoing: map<string, seq<string>>) {
    forall n :: Targets(es, n) == if n in outgoing then outgoing[n] else []
  }

  lemma ListOne(es: seq<GraphEdge>, i: nat, outgoing: map<string, seq<string>>)
    requires i < |es| && ListsTargets(es[..i], outgoing)
    ensures var source := es[i].from.node;
      ListsTargets(es[..i + 1],
        outgoing[source := (if source in outgoing then outgoing[source] else []) + [es[i].to.node]])
  {
    OneMoreEdge(es, i);
  }

  method CountIncoming(g: WorkflowGraph)
    returns (missing: Option<string>, incoming: map<string, int>, outgoing: map<string, seq<string>>)
    ensures missing == None <==> forall e | e in g.edges :: e.to.node in g.nodes
    ensures missing.Some? ==> missing.value !in g.nodes && exists e | e in g.edges :: e.to.node == missing.value
    ensures missing == None ==>
      && incoming == PendingCounts(g, g.edges, {})
      && ListsTargets(g.edges, outgoing)
  {
    var es := g.edges;
    missing := None;
    incoming := map n | n in g.nodes :: 0;
    outgoing := map[];
    for i := 0 to |es|
      invariant incoming == PendingCounts(g, es[..i], {})
      invariant ListsTargets(es[..i], outgoing)
      invariant forall j | 0 <= j < i :: es[j].to.node in g.nodes
    {
      var e := es[i];
      if e.to.node !in incoming {
        return Some(e.to.node), incoming, outgoing;
      }
      CountOne(g, i);
      ListOne(es, i, outgoing);
      incoming := incoming[e.to.node := incoming[e.to.node] + 1];
      var sofar := if e.from.node in outgoing then outgoing[e.from.node] else [];
      outgoing := outgoing[e.from.node := sofar + [e.to.node]];
    }
    assert es[..|es|] == es;
    assert forall e | e in es :: e.to.node in g.nodes;
  }

  /** Every listed target loses one pending source; those left with none become ready. */
  method Release(outs: seq<string>, incoming0: map<string, int>, ready0: set<string>)
    returns (incoming: map<string, int>, ready: set<string>)
    requires forall n | n in outs :: n in incoming0 && multiset(outs)[n] <= incoming0[n]
    ensures incoming.Keys == incoming0.Keys
    ensures forall n | n in incoming0 :: incoming[n] == incoming0[n] - multiset(outs)[n]
    ensures forall n :: n in ready <==> n in ready0 || (n in incoming0 && incoming0[n] != 0 && incoming[n] == 0)
  {
    incoming, ready := incoming0, ready0;
    for j := 0 to |outs|
      invariant incoming.Keys == incoming0.Keys
      invariant forall n | n in incoming0 :: incoming[n] == incoming0[n] - multiset(outs[..j])[n]
      invariant forall n :: n in ready <==> n in ready0 || (n in incoming0 && incoming0[n] != 0 && incoming[n] == 0)
    {
      var next := outs[j];
      assert next in outs;
      PrefixCount(outs, j, next);
      assert outs[..j + 1] == outs[..j] + [next];
      incoming := incoming[next := incoming[next] - 1];
      if incoming[next] == 0 {
        ready := ready + {next};
      }
    }
    assert outs[..|outs|] == outs;
  }

  lemma PrefixCount(xs: seq<string>, j: nat, x: string)
    requires j < |xs| && xs[j] == x
    ensures multiset(xs[..j])[x] < multiset(xs)[x]
  {
    assert xs == xs[..j] + [x] + xs[j + 1..];
  }

  ghost predicate KahnState(g: WorkflowGraph, ordered: seq<string>, ready: set<string>, incoming: map<string, int>) {
    && Members(ordered) <= g.nodes.Keys
    && ready !! Members(ordered)
    && incoming == PendingCounts(g, g.edges, Members(ordered))
    && (forall n :: n in ready || n in ordered <==> n in g.nodes && Pending(g.edges, n, Members(ordered)) == 0)
    && Respects(g.edges, ordered)
    && LeastFirst(g, ordered)
  }

  lemma ReleaseFits(g: WorkflowGraph, ordered: seq<string>, incoming: map<string, int>, node: string)
    requires node !in ordered && incoming == PendingCounts(g, g.edges, Members(ordered))
    requires forall e | e in g.edges :: e.to.node in g.nodes
    ensures forall n | n in Targets(g.edges, node) ::
      n in incoming && multiset(Targets(g.edges, node))[n] <= incoming[n]
  {
    TargetsAreTargets(g.edges, node);
    forall n | n in Targets(g.edges, node)
      ensures n in incoming && multiset(Targets(g.edges, node))[n] <= incoming[n]
    {
      PendingAfter(g.edges, n, Members(ordered), node);
    }
  }

  lemma CountsStep(
    g: WorkflowGraph, done: set<string>, ready0: set<string>, incoming0: map<string, int>,
    node: string, ready: set<string>, incoming: map<string, int>)
    requires incoming0 == PendingCounts(g, g.edges, done) && node !in done && node in ready0 && ready0 !! done
    requires forall n :: n in ready0 || n in done <==> n in g.nodes && Pending(g.edges, n, done) == 0
    requires incoming.Keys == incoming0.Keys
    requires forall n | n in incoming0 :: incoming[n] == incoming0[n] - multiset(Targets(g.edges, node))[n]
    requires forall n :: n in ready <==>
      n in ready0 - {node} || (n in incoming0 && incoming0[n] != 0 && incoming[n] == 0)
    ensures incoming == PendingCounts(g, g.edges, done + {node})
    ensures forall n :: n in ready || n in done + {node} <==> n in g.nodes && Pending(g.edges, n, done + {node}) == 0
    ensures ready !! done + {node}
  {
    forall n
      ensures Pending(g.edges, n, done) == Pending(g.edges, n, done + {node}) + multiset(Targets(g.edges, node))[n]
    {
      PendingAfter(g.edges, n, done, node);
    }
  }

  lemma KahnStep(
    g: WorkflowGraph, ordered: seq<string>, ready0: set<string>, incoming0: map<string, int>,
    node: string, ready: set<string>, incoming: map<string, int>)
    requires KahnState(g, ordered, ready0, incoming0)
    requires node in ready0 && forall n | n in ready0 :: StrLeq(node, n)
    requires incoming.Keys == incoming0.Keys
    requires forall n | n in incoming0 :: incoming[n] == incoming0[n] - multiset(Targets(g.edges, node))[n]
    requires forall n :: n in ready <==>
      n in ready0 - {node} || (n in incoming0 && incoming0[n] != 0 && incoming[n] == 0)
    ensures KahnState(g, ordered + [node], ready, incoming)
    ensures Members(ordered + [node]) == Members(ordered) + {node}
  {
    CountsStep(g, Members(ordered), ready0, incoming0, node, ready, incoming);
    assert Members(ordered + [node]) == Members(ordered) + {node};
    Extend(g, ordered, ready0, node);
  }

  method TopologicalOrder(g: WorkflowGraph) returns (r: Result<seq<string>, GraphError>)
    ensures r.Ok? <==> exists order :: IsOrder(g, order)
    ensures r.Ok? ==> IsOrder(g, r.value) && LeastFirst(g, r.value)
    ensures r.Err? && r.error != CycleDetected ==>
      r.error.MissingEndpoint? && r.error.id !in g.nodes && exists e | e in g.edges :: e.to.node == r.error.id
    ensures r == Err(CycleDetected) ==> forall e | e in g.edges :: e.to.node in g.nodes
  {
    var missing, incoming, outgoing := CountIncoming(g);
    if missing.Some? {
      return Err(MissingEndpoint(missing.value));
    }
    var ready := set n | n in incoming && incoming[n] == 0;
    var ordered: seq<string> := [];
    assert Members(ordered) == {};
    while ready != {}
      invariant KahnState(g, ordered, ready, incoming)
      decreases g.nodes.Keys - Members(ordered)
    {
      ghost var ready0, incoming0 := ready, incoming;
      var node := MinKey(ready);
      ready := ready - {node};
      ordered := ordered + [node];
      var outs := if node in outgoing then outgoing[node] else [];
      ReleaseFits(g, ordered[..|ordered| - 1], incoming, node);
      incoming, ready := Release(outs, incoming, ready);
      KahnStep(g, ordered[..|ordered| - 1], ready0, incoming0, node, ready, incoming);
    }
    if |ordered| != |g.nodes| {
      NoOrder(g, ordered);
      return Err(CycleDetected);
    }
    DistinctFill(ordered, g.nodes.Keys);
    assert IsOrder(g, ordered);
    return Ok(ordered);
  }

  lemma Extend(g: WorkflowGraph, ordered: seq<string>, ready: set<string>, node: string)
    requires Respects(g.edges, ordered) && LeastFirst(g, ordered)
    requires ready !! Members(ordered)
    requires forall n :: n in ready || n in ordered <==> n in g.nodes && Pending(g.edges, n, Members(ordered)) == 0
    requires node in ready && forall n | n in ready :: StrLeq(node, n)
    ensures Respects(g.edges, ordered + [node]) && LeastFirst(g, ordered + [node])
  {
    forall n { PendingZero(g.edges, n, Members(ordered)); }
    assert forall i | 0 <= i < |ordered| :: ordered[i] in Members(ordered);
    RespectsMore(g.edges, ordered, node);
    LeastMore(g, ordered, node);
  }

  lemma RespectsMore(es: seq<GraphEdge>, ordered: seq<string>, node: string)
    requires Respects(es, ordered) && node !in ordered && Free(es, node, Members(ordered))
    ensures Respects(es, ordered + [node])
  {
    var order := ordered + [node];
    assert forall k | 0 <= k < |ordered| :: order[..k] == ordered[..k];
    assert order[..|ordered|] == ordered;
    forall k, e | 0 <= k < |order| && e in es && e.to.node == order[k] ensures e.from.node in order[..k] {
      if k == |ordered| { assert e.from.node in Members(ordered); }
    }
  }

  lemma LeastMore(g: WorkflowGraph, ordered: seq<string>, node: string)
    requires LeastFirst(g, ordered)
    requires forall n | n in g.nodes && n !in ordered && Free(g.edges, n, Members(ordered)) :: StrLeq(node, n)
    ensures LeastFirst(g, ordered + [node])
  {
    var order := ordered + [node];
    assert forall k | 0 <= k < |ordered| :: order[..k] == ordered[..k];
    assert order[..|ordered|] == ordered;
  }

  lemma DistinctFill(xs: seq<string>, s: set<string>)
    requires forall i, j | 0 <= i < j < |xs| :: xs[i] != xs[j]
    requires Members(xs) <= s
    ensures |xs| == |s| <==> Members(xs) == s
  {
    DistinctSize(xs);
    if |xs| == |s| {
      assert |s - Members(xs)| == |s| - |Members(xs)|;
      assert s == Members(xs) + (s - Members(xs));
    }
  }

  lemma {:induction false} DistinctSize(xs: seq<string>)
    requires forall i, j | 0 <= i < j < |xs| :: xs[i] != xs[j]
    ensures |Members(xs)| == |xs|
  {
    if xs == [] {
      assert Members(xs) == {};
    } else {
      var last, rest := xs[|xs| - 1], xs[..|xs| - 1];
      DistinctSize(rest);
      assert Members(xs) == Members(rest) + {last};
    }
  }

  /** When Kahn's algorithm stops short, no order exists. */
  lemma NoOrder(g: WorkflowGraph, ordered: seq<string>)
    requires Members(ordered) <= g.nodes.Keys && Respects(g.edges, ordered)
    requires forall n | n in g.nodes && Pending(g.edges, n, Members(ordered)) == 0 :: n in ordered
    requires |ordered| != |g.nodes|
    ensures !exists order :: IsOrder(g, order)
  {
    DistinctFill(ordered, g.nodes.Keys);
    if order :| IsOrder(g, order) {
      AllCovered(g, ordered, order);
      assert false;
    }
  }

  lemma AllCovered(g: WorkflowGraph, ordered: seq<string>, order: seq<string>)
    requires IsOrder(g, order)
    requires forall n | n in g.nodes && Pending(g.edges, n, Members(ordered)) == 0 :: n in ordered
    ensures g.nodes.Keys <= Members(ordered)
  {
    OrderCovered(g, ordered, order, |order|);
    forall n | n in g.nodes ensures n in ordered { assert n in Members(order); }
  }

  lemma {:induction false} OrderCovered(g: WorkflowGraph, ordered: seq<string>, order: seq<string>, k: nat)
    requires IsOrder(g, order) && k <= |order|
    requires forall n | n in g.nodes && Pending(g.edges, n, Members(ordered)) == 0 :: n in ordered
    ensures forall i | 0 <= i < k :: order[i] in ordered
  {
    if k > 0 {
      OrderCovered(g, ordered, order, k - 1);
      var n := order[k - 1];
      assert n in Members(order);
      forall e | e in g.edges && e.to.node == n ensures e.from.node in Members(ordered) {
        assert e.from.node in order[..k - 1];
      }
      PendingZero(g.edges, n, Members(ordered));
    }
  }

  /** A rank that rises along every edge of a closed graph gives it an order. */
  lemma RankGivesOrder(g: WorkflowGraph, rank: map<string, int>) returns (order: seq<string>)
    requires forall n | n in g.nodes :: n in rank
    requires forall e | e in g.edges ::
      e.from.node in g.nodes && e.to.node in g.nodes && rank[e.from.node] < rank[e.to.node]
    ensures IsOrder(g, order)
  {
    order := OrderUpTo(g, rank, g.nodes.Keys);
  }

  lemma {:induction false} OrderUpTo(
    g: WorkflowGraph, rank: map<string, int>, todo: set<string>) returns (order: seq<string>)
    requires todo <= g.nodes.Keys && forall n | n in g.nodes :: n in rank
    requires forall e | e in g.edges ::
      e.from.node in g.nodes && e.to.node in g.nodes && rank[e.from.node] < rank[e.to.node]
    requires forall e | e in g.edges && e.to.node in todo :: e.from.node in todo
    ensures Members(order) == todo && Respects(g.edges, order)
    decreases todo
  {
    if todo == {} {
      order := [];
    } else {
      var top := Highest(todo, rank);
      var rest := OrderUpTo(g, rank, todo - {top});
      order := rest + [top];
      assert Members(order) == Members(rest) + {top};
      assert forall k | 0 <= k < |rest| :: order[..k] == rest[..k];
      assert order[..|rest|] == rest;
      assert forall i | 0 <= i < |rest| :: rest[i] in Members(rest);
      forall e | e in g.edges && e.to.node == top ensures e.from.node in rest {
        assert e.from.node in Members(rest);
      }
    }
  }

  lemma {:induction false} Highest(s: set<string>, rank: map<string, int>) returns (top: string)
    requires s != {} && forall n | n in s :: n in rank
    ensures top in s && forall n | n in s :: rank[n] <= rank[top]
    decreases s
  {
    top :| top in s;
    if s != {top} {
      var other := Highest(s - {top}, rank);
      if rank[other] > rank[top] { top := other; }
    }
  }
}
