/** Workspace generations and the snapshot coordinator (web/src/workspace-request-scope.ts,
    web/src/workspace-snapshot.ts, and their use in web/src/store.ts). */
module Snapshots {
  import opened Ordering

  // ----- the two objects, as values -----

  datatype Scope = Scope(generation: nat, workspaceId: Option<string>)
  datatype Coord = Coord(live: Option<nat>, refreshing: Option<nat>, trailing: Option<nat>)

  /** A refresh is refused, joined to the one in flight, or starts a fetch. */
  datatype Outcome = Refused | Joined | Started

  function Begun(s: Scope, workspaceId: Option<string>): Scope { Scope(s.generation + 1, workspaceId) }

  predicate IsActive(s: Scope, generation: nat, workspaceId: string) {
    generation == s.generation && s.workspaceId == Some(workspaceId)
  }

  function Adopted(s: Scope, generation: nat, workspaceId: string): Scope {
    if generation == s.generation then s.(workspaceId := Some(workspaceId)) else s
  }

  const RESET := Coord(None, None, None)

  function RefreshOutcome(s: Scope, c: Coord, workspaceId: string): Outcome {
    if s.workspaceId != Some(workspaceId) then Refused
    else if c.refreshing == Some(s.generation) then Joined
    else Started
  }

  function Refreshed(s: Scope, c: Coord, workspaceId: string): Coord {
    match RefreshOutcome(s, c, workspaceId)
    case Refused => c
    case Joined => c.(trailing := Some(s.generation))
    case Started => c.(refreshing := Some(s.generation))
  }

  /** Whether a fetched snapshot replaces the state. */
  predicate Commits(s: Scope, c: Coord, shown: Option<string>, generation: nat, workspaceId: string) {
    IsActive(s, generation, workspaceId) && c.trailing != Some(generation) && shown == Some(workspaceId)
  }

  function FinishOutcome(s: Scope, c: Coord, generation: nat, workspaceId: string): Outcome {
    if c.refreshing != Some(generation) || c.trailing != Some(generation) then Refused
    else RefreshOutcome(s, Coord(c.live, None, None), workspaceId)
  }

  function Finished(s: Scope, c: Coord, generation: nat, workspaceId: string): Coord {
    if c.refreshing != Some(generation) then c
    else if c.trailing != Some(generation) then c.(refreshing := None)
    else Refreshed(s, Coord(c.live, None, None), workspaceId)
  }

  /** Going live refreshes, except for the first time in a generation. */
  function WentLive(s: Scope, c: Coord, shown: Option<string>): (Coord, Outcome) {
    if shown.None? then (c, Refused)
    else if c.live != Some(s.generation) then (c.(live := Some(s.generation)), Refused)
    else (Refreshed(s, c, shown.value), RefreshOutcome(s, c, shown.value))
  }

  // ----- the two objects, updated in place -----

  class WorkspaceRequestScope {
    var generation: nat
    var workspaceId: Option<string>
    /** The controller whose signal is handed out; `begin` aborts the one before. */
    var controller: Option<nat>

    ghost predicate Valid()
      reads this
    {
      controller.Some? ==> controller.value == generation
    }

    function Abs(): Scope
      reads this
    {
      Scope(generation, workspaceId)
    }

    constructor ()
      ensures Valid() && Abs() == Scope(0, None)
    {
      generation, workspaceId, controller := 0, None, None;
    }

    method Begin(workspaceId: Option<string>) returns (activation: nat)
      requires Valid()
      modifies this
      ensures Valid() && Abs() == Begun(old(Abs()), workspaceId) && activation == generation
    {
      generation := generation + 1;
      this.workspaceId := workspaceId;
      controller := Some(generation);
      return generation;
    }

    method Adopt(generation: nat, workspaceId: string) returns (done: bool)
      requires Valid()
      modifies this`workspaceId
      ensures Valid() && Abs() == Adopted(old(Abs()), generation, workspaceId)
      ensures done <==> generation == this.generation
    {
      if generation != this.generation {
        return false;
      }
      this.workspaceId := Some(workspaceId);
      return true;
    }

    /** The current signal is aborted only once a newer controller replaced it. */
    function SignalAborted(): bool
      reads this
    {
      controller.Some? && controller.value < generation
    }
  }

  class WorkspaceSnapshotCoordinator {
    const scope: WorkspaceRequestScope
    var liveGeneration: Option<nat>
    var refreshState: Option<nat>
    var trailingGeneration: Option<nat>

    function Abs(): Coord
      reads this
    {
      Coord(liveGeneration, refreshState, trailingGeneration)
    }

    constructor (scope: WorkspaceRequestScope)
      ensures Abs() == RESET && this.scope == scope
    {
      this.scope := scope;
      liveGeneration, refreshState, trailingGeneration := None, None, None;
    }

    method Reset()
      modifies this
      ensures Abs() == RESET
    {
      liveGeneration, refreshState, trailingGeneration := None, None, None;
    }

    method Refresh(workspaceId: string) returns (outcome: Outcome)
      requires scope.Valid()
      modifies this
      ensures Abs() == Refreshed(scope.Abs(), old(Abs()), workspaceId)
      ensures outcome == RefreshOutcome(scope.Abs(), old(Abs()), workspaceId)
    {
      var generation := scope.generation;
      if scope.workspaceId != Some(workspaceId) || scope.SignalAborted() {
        return Refused;
      }
      if refreshState == Some(generation) {
        trailingGeneration := Some(generation);
        return Joined;
      }
      refreshState := Some(generation);
      return Started;
    }

    method SetConnection(isLive: bool, shown: Option<string>) returns (outcome: Outcome)
      requires scope.Valid()
      modifies this
      ensures isLive ==> (Abs(), outcome) == WentLive(scope.Abs(), old(Abs()), shown)
      ensures !isLive ==> Abs() == old(Abs()) && outcome == Refused
    {
      if !isLive || shown.None? {
        return Refused;
      }
      var generation := scope.generation;
      if liveGeneration != Some(generation) {
        liveGeneration := Some(generation);
        return Refused;
      }
      outcome := Refresh(shown.value);
    }

    /** Whether a fetched snapshot replaces the state that is shown. */
    method ApplySnapshot(generation: nat, workspaceId: string, shown: Option<string>) returns (commits: bool)
      ensures commits <==> Commits(scope.Abs(), Abs(), shown, generation, workspaceId)
    {
      commits := generation == scope.generation && scope.workspaceId == Some(workspaceId)
        && trailingGeneration != Some(generation) && shown == Some(workspaceId);
    }

    method FinishRefresh(generation: nat, workspaceId: string) returns (outcome: Outcome)
      requires scope.Valid()
      modifies this
      ensures Abs() == Finished(scope.Abs(), old(Abs()), generation, workspaceId)
      ensures outcome == FinishOutcome(scope.Abs(), old(Abs()), generation, workspaceId)
    {
      if refreshState != Some(generation) {
        return Refused;
      }
      refreshState := None;
      if trailingGeneration == Some(generation) {
        trailingGeneration := None;
        outcome := Refresh(workspaceId);
      } else {
        return Refused;
      }
    }
  }

  // ----- every interleaving -----

  /** A fetch answers or fails once (`settled`), and its `finally` runs in a later turn. */
  datatype Fetch = Fetch(generation: nat, workspaceId: string, startedAt: nat, settled: bool)

  /** What was true when a snapshot was committed. */
  datatype Commit = Commit(fetch: Fetch, scope: Scope, lastAccepted: Option<nat>)

  /** `loads` are the fetches that an activation makes on its own, outside the coordinator,
      and `loaded` what they committed. */
  datatype World = World(
    scope: Scope, coord: Coord, shown: Option<string>, fetches: seq<Fetch>, clock: nat,
    lastAccepted: Option<nat>, lastStarted: Option<nat>, commits: seq<Commit>, loads: seq<Fetch>, loaded: seq<Commit>)

  datatype Action =
    | Activate(target: Option<string>)
    | Adopt(generation: nat, workspaceId: string)
    | Request(workspaceId: string)
    | GoLive
    | ShowsWorkspace(visible: Option<string>)
    | Answers(index: nat)
    | Fails(index: nat)
    | Finishes(index: nat)
    | Loads
    | LoadAnswers(index: nat)
    | LoadFails(index: nat)

  /** Adopting a workspace does not change what a fetch in flight is for. */
  predicate AdoptFits(w: World, generation: nat, workspaceId: string) {
    generation == w.scope.generation && w.coord.refreshing.Some? ==> w.scope.workspaceId == Some(workspaceId)
  }

  /** An activation loads in the turn that sets its workspace, before any request. */
  ghost predicate Allowed(w: World, a: Action) {
    match a
    case Adopt(generation, ws) => AdoptFits(w, generation, ws)
    case Loads => w.scope.workspaceId.Some? && w.lastAccepted.None? && w.lastStarted.None?
    case LoadAnswers(i) => i < |w.loads|
    case LoadFails(i) => i < |w.loads|
    case Answers(i) => i < |w.fetches| && !w.fetches[i].settled
    case Fails(i) => i < |w.fetches| && !w.fetches[i].settled
    case Finishes(i) => i < |w.fetches| && w.fetches[i].settled
    case _ => true
  }

  function AfterRefresh(w: World, coord: Coord, outcome: Outcome, workspaceId: string): World {
    if outcome.Started?
    then w.(coord := coord, lastStarted := Some(w.clock),
      fetches := w.fetches + [Fetch(w.scope.generation, workspaceId, w.clock, false)])
    else w.(coord := coord)
  }

  function Accepting(w: World, outcome: Outcome): World {
    if outcome.Refused? then w else w.(lastAccepted := Some(w.clock))
  }

  function Act(w: World, a: Action): World {
    match a
    case Activate(ws) => w.(scope := Begun(w.scope, ws), coord := RESET, lastAccepted := None, lastStarted := None)
    case Adopt(generation, ws) => w.(scope := Adopted(w.scope, generation, ws))
    case Request(ws) =>
      var outcome := RefreshOutcome(w.scope, w.coord, ws);
      AfterRefresh(Accepting(w, outcome), Refreshed(w.scope, w.coord, ws), outcome, ws)
    case GoLive =>
      var (coord, outcome) := WentLive(w.scope, w.coord, w.shown);
      AfterRefresh(Accepting(w, outcome), coord, outcome, if w.shown.Some? then w.shown.value else "")
    case ShowsWorkspace(shown) => w.(shown := shown)
    case Answers(i) =>
      if i >= |w.fetches| then w else
        var f := w.fetches[i];
        var settled := w.(fetches := w.fetches[i := f.(settled := true)]);
        if Commits(w.scope, w.coord, w.shown, f.generation, f.workspaceId)
        then settled.(commits := w.commits + [Commit(f, w.scope, w.lastAccepted)]) else settled
    case Fails(i) => if i >= |w.fetches| then w else w.(fetches := w.fetches[i := w.fetches[i].(settled := true)])
    case Finishes(i) =>
      if i >= |w.fetches| then w else
        var f := w.fetches[i];
        var removed := w.(fetches := w.fetches[..i] + w.fetches[i + 1..]);
        AfterRefresh(removed, Finished(w.scope, w.coord, f.generation, f.workspaceId),
                     FinishOutcome(w.scope, w.coord, f.generation, f.workspaceId), f.workspaceId)
    case Loads =>
      if w.scope.workspaceId.None? then w
      else w.(loads := w.loads + [Fetch(w.scope.generation, w.scope.workspaceId.value, w.clock, false)])
    case LoadAnswers(i) =>
      if i >= |w.loads| then w else
        var f := w.loads[i];
        var removed := w.(loads := w.loads[..i] + w.loads[i + 1..]);
        if IsActive(w.scope, f.generation, f.workspaceId)
        then removed.(shown := Some(f.workspaceId), loaded := w.loaded + [Commit(f, w.scope, w.lastAccepted)])
        else removed
    case LoadFails(i) => if i >= |w.loads| then w else w.(loads := w.loads[..i] + w.loads[i + 1..])
  }

  function Do(w: World, a: Action): World { Act(w, a).(clock := w.clock + 1) }

  function Run(w: World, actions: seq<Action>): World
    decreases |actions|
  {
    if actions == [] then w else Run(Do(w, actions[0]), actions[1..])
  }

  ghost predicate AllAllowed(w: World, actions: seq<Action>)
    decreases |actions|
  {
    actions == [] || (Allowed(w, actions[0]) && AllAllowed(Do(w, actions[0]), actions[1..]))
  }

  const START := World(Scope(0, None), RESET, None, [], 0, None, None, [], [], [])

  // ----- the invariant -----

  predicate Current(w: World, i: nat)
    requires i < |w.fetches|
  {
    w.fetches[i].generation == w.scope.generation
  }

  /** At most one fetch of the current generation, and only while one is recorded. */
  ghost predicate OneFetch(w: World) {
    && (forall i | 0 <= i < |w.fetches| :: w.fetches[i].generation <= w.scope.generation)
    && (forall i, j | 0 <= i < j < |w.fetches| :: !(Current(w, i) && Current(w, j)))
    && (w.coord.refreshing.Some? ==> w.coord.refreshing.value == w.scope.generation)
    && (w.coord.refreshing.Some? <==> exists i | 0 <= i < |w.fetches| :: Current(w, i))
  }

  /** The fetch of the current generation is for the current workspace and the last started. */
  ghost predicate FetchFits(w: World) {
    forall i | 0 <= i < |w.fetches| && Current(w, i) ::
      w.scope.workspaceId == Some(w.fetches[i].workspaceId) && w.lastStarted == Some(w.fetches[i].startedAt)
  }

  /** Every accepted request has a fetch started at or after it, or one is owed. */
  ghost predicate NothingForgotten(w: World) {
    && (w.coord.trailing.Some? ==> w.coord.trailing == Some(w.scope.generation) == w.coord.refreshing)
    && (w.lastAccepted.Some? ==>
          w.coord.trailing.Some? || (w.lastStarted.Some? && w.lastAccepted.value <= w.lastStarted.value))
    && (w.lastAccepted.Some? ==> w.lastAccepted.value < w.clock)
  }

  /** Committed for the then active generation and workspace, and no request accepted
      before the commit was newer than the fetch. */
  predicate FreshCommit(c: Commit) {
    && IsActive(c.scope, c.fetch.generation, c.fetch.workspaceId)
    && (c.lastAccepted.Some? ==> c.lastAccepted.value <= c.fetch.startedAt)
  }

  ghost predicate Inv(w: World) {
    && OneFetch(w) && FetchFits(w) && NothingForgotten(w)
    && forall c | c in w.commits :: FreshCommit(c)
  }

  /** A load began before every request of its generation; what it committed was for the then
      active workspace, and fresh exactly if no request had been accepted. */
  ghost predicate LoadsFit(w: World) {
    && (forall f | f in w.loads && f.generation == w.scope.generation ::
          && f.startedAt < w.clock && (w.lastAccepted.Some? ==> f.startedAt < w.lastAccepted.value))
    && (forall f | f in w.loads :: f.generation <= w.scope.generation)
    && (forall c | c in w.loaded ::
          && IsActive(c.scope, c.fetch.generation, c.fetch.workspaceId)
          && (FreshCommit(c) <==> c.lastAccepted.None?))
  }

  // ----- each step keeps it -----

  lemma StartsOne(w: World, coord: Coord, workspaceId: string)
    requires OneFetch(w) && FetchFits(w) && w.coord.refreshing.None? && w.scope.workspaceId == Some(workspaceId)
    requires coord.refreshing == Some(w.scope.generation)
    ensures var v := AfterRefresh(w, coord, Started, workspaceId); OneFetch(v) && FetchFits(v)
  {
    var v := AfterRefresh(w, coord, Started, workspaceId);
    var n := |w.fetches|;
    assert v.fetches[n].generation == v.scope.generation && Current(v, n);
    forall i | 0 <= i < n ensures v.fetches[i] == w.fetches[i] && !Current(v, i) {
      assert !Current(w, i);
    }
  }

  lemma SameFetches(w: World, coord: Coord)
    requires OneFetch(w) && FetchFits(w) && coord.refreshing == w.coord.refreshing
    ensures OneFetch(w.(coord := coord)) && FetchFits(w.(coord := coord))
  {
    var v := w.(coord := coord);
    assert forall i | 0 <= i < |w.fetches| :: Current(v, i) == Current(w, i);
  }

  lemma RefreshKeeps(w: World, workspaceId: string)
    requires Inv(w)
    ensures Inv(Do(w, Request(workspaceId)))
  {
    var outcome := RefreshOutcome(w.scope, w.coord, workspaceId);
    var accepting := Accepting(w, outcome);
    assert forall i | 0 <= i < |w.fetches| :: Current(accepting, i) == Current(w, i);
    assert OneFetch(accepting) && FetchFits(accepting);
    var v := Act(w, Request(workspaceId));
    if outcome.Started? {
      StartsOne(accepting, Refreshed(w.scope, w.coord, workspaceId), workspaceId);
    } else {
      SameFetches(accepting, Refreshed(w.scope, w.coord, workspaceId));
    }
    ClockKeeps(v, w.clock + 1);
  }

  lemma ClockKeeps(v: World, clock: nat)
    ensures OneFetch(v) ==> OneFetch(v.(clock := clock))
    ensures FetchFits(v) ==> FetchFits(v.(clock := clock))
  {
    var u := v.(clock := clock);
    assert forall i | 0 <= i < |v.fetches| :: Current(u, i) == Current(v, i);
  }

  lemma LiveKeeps(w: World)
    requires Inv(w)
    ensures Inv(Do(w, GoLive))
  {
    if w.shown.Some? && w.coord.live == Some(w.scope.generation) {
      RefreshKeeps(w, w.shown.value);
      assert Do(w, GoLive) == Do(w, Request(w.shown.value));
    } else {
      var coord := WentLive(w.scope, w.coord, w.shown).0;
      SameFetches(w, coord);
      ClockKeeps(w.(coord := coord), w.clock + 1);
    }
  }

  lemma ActivateKeeps(w: World, workspaceId: Option<string>)
    requires Inv(w)
    ensures Inv(Do(w, Activate(workspaceId)))
  {
    var v := Do(w, Activate(workspaceId));
    assert forall i | 0 <= i < |w.fetches| :: !Current(v, i);
  }

  lemma AdoptKeeps(w: World, generation: nat, workspaceId: string)
    requires Inv(w) && Allowed(w, Adopt(generation, workspaceId))
    ensures Inv(Do(w, Adopt(generation, workspaceId)))
  {
    var v := Do(w, Adopt(generation, workspaceId));
    assert forall i | 0 <= i < |w.fetches| :: Current(v, i) == Current(w, i);
  }

  /** Adopting keeps the invariant exactly when it does not change what a fetch is for. */
  lemma AdoptFitsExactly(w: World, generation: nat, workspaceId: string)
    requires Inv(w)
    ensures Inv(Do(w, Adopt(generation, workspaceId))) <==> AdoptFits(w, generation, workspaceId)
  {
    var v := Do(w, Adopt(generation, workspaceId));
    assert forall i | 0 <= i < |w.fetches| :: Current(v, i) == Current(w, i);
  }

  /** The store adopts only into activations that began without a workspace, which fits. */
  lemma StoreAdoptionsFit(w: World, generation: nat, workspaceId: string)
    requires Inv(w) && w.scope.workspaceId.None?
    ensures AdoptFits(w, generation, workspaceId)
  {
    assert forall i | 0 <= i < |w.fetches| :: !Current(w, i);
  }

  lemma LoadKeeps(w: World, a: Action)
    requires Inv(w) && Allowed(w, a) && (a.Loads? || a.LoadAnswers? || a.LoadFails?)
    ensures Inv(Do(w, a))
  {
    var v := Do(w, a);
    assert forall i | 0 <= i < |w.fetches| :: Current(v, i) == Current(w, i);
  }

  lemma LoadsStayFit(w: World, a: Action)
    requires LoadsFit(w) && Allowed(w, a)
    ensures LoadsFit(Do(w, a))
  {
    var v := Do(w, a);
    if a.Loads? || a.LoadAnswers? || a.LoadFails? {
      LoadTurns(w, a);
    } else {
      assert v.loads == w.loads && v.loaded == w.loaded;
    }
  }

  lemma LoadTurns(w: World, a: Action)
    requires LoadsFit(w) && Allowed(w, a) && (a.Loads? || a.LoadAnswers? || a.LoadFails?)
    ensures LoadsFit(Do(w, a))
  {
    if !a.Loads? {
      var rest := w.loads[..a.index] + w.loads[a.index + 1..];
      assert forall f | f in rest :: f in w.loads;
      assert w.loads[a.index] in w.loads;
    }
  }

  lemma SettleKeeps(w: World, i: nat)
    requires Inv(w) && i < |w.fetches|
    ensures Inv(Do(w, Fails(i))) && Inv(Do(w, Answers(i)))
  {
    var v, u := Do(w, Fails(i)), Do(w, Answers(i));
    assert forall j | 0 <= j < |w.fetches| :: Current(v, j) == Current(w, j) && Current(u, j) == Current(w, j);
    var f := w.fetches[i];
    if Commits(w.scope, w.coord, w.shown, f.generation, f.workspaceId) {
      assert Current(w, i);
      assert FreshCommit(Commit(f, w.scope, w.lastAccepted));
    }
  }

  /** Removing a settled fetch leaves none of its generation if it was the current one. */
  lemma RemovedFetch(w: World, i: nat)
    requires Inv(w) && i < |w.fetches|
    ensures var v := w.(fetches := w.fetches[..i] + w.fetches[i + 1..]);
      && (!Current(w, i) ==> OneFetch(v) && FetchFits(v))
      && (Current(w, i) ==> OneFetch(v.(coord := w.coord.(refreshing := None))) && FetchFits(v))
  {
    var v := w.(fetches := w.fetches[..i] + w.fetches[i + 1..]);
    forall j | 0 <= j < |v.fetches| ensures v.fetches[j] == w.fetches[if j < i then j else j + 1] {}
    forall j | 0 <= j < |w.fetches| && j != i ensures w.fetches[j] == v.fetches[if j < i then j else j - 1] {}
    if !Current(w, i) {
      RemovedOther(w, v, i);
    } else {
      RemovedCurrent(w, v, i);
    }
  }

  lemma RemovedOther(w: World, v: World, i: nat)
    requires Inv(w) && i < |w.fetches| && !Current(w, i) && v == w.(fetches := w.fetches[..i] + w.fetches[i + 1..])
    ensures OneFetch(v) && FetchFits(v)
  {
    forall j | 0 <= j < |v.fetches| ensures Current(v, j) == Current(w, if j < i then j else j + 1) {}
    if k :| 0 <= k < |w.fetches| && Current(w, k) {
      assert Current(v, if k < i then k else k - 1);
    }
  }

  lemma RemovedCurrent(w: World, v: World, i: nat)
    requires Inv(w) && i < |w.fetches| && Current(w, i) && v == w.(fetches := w.fetches[..i] + w.fetches[i + 1..])
    ensures OneFetch(v.(coord := w.coord.(refreshing := None))) && FetchFits(v)
    ensures forall j | 0 <= j < |v.fetches| :: !Current(v, j)
  {
    forall j | 0 <= j < |v.fetches| ensures !Current(v, j) {
      assert Current(v, j) == Current(w, if j < i then j else j + 1);
    }
    var u := v.(coord := w.coord.(refreshing := None));
    assert forall j | 0 <= j < |v.fetches| :: Current(u, j) == Current(v, j);
  }

  lemma FinishKeeps(w: World, i: nat)
    requires Inv(w) && i < |w.fetches|
    ensures Inv(Do(w, Finishes(i)))
  {
    RemovedFetch(w, i);
    if Current(w, i) {
      FinishCurrent(w, i, w.(fetches := w.fetches[..i] + w.fetches[i + 1..]));
    } else {
      FinishOther(w, i);
    }
    ClockKeeps(Act(w, Finishes(i)), w.clock + 1);
  }

  lemma FinishOther(w: World, i: nat)
    requires Inv(w) && i < |w.fetches| && !Current(w, i)
    ensures Act(w, Finishes(i)) == w.(fetches := w.fetches[..i] + w.fetches[i + 1..])
  {
  }

  lemma FinishCurrent(w: World, i: nat, removed: World)
    requires Inv(w) && i < |w.fetches| && Current(w, i)
    requires removed == w.(fetches := w.fetches[..i] + w.fetches[i + 1..])
    requires OneFetch(removed.(coord := w.coord.(refreshing := None))) && FetchFits(removed)
    ensures OneFetch(Act(w, Finishes(i))) && FetchFits(Act(w, Finishes(i))) && NothingForgotten(Do(w, Finishes(i)))
  {
    var f := w.fetches[i];
    var idle := removed.(coord := Coord(w.coord.live, None, None));
    SameFetches(removed.(coord := w.coord.(refreshing := None)), idle.coord);
    if w.coord.trailing == Some(f.generation) {
      StartsOne(idle, Refreshed(w.scope, idle.coord, f.workspaceId), f.workspaceId);
    }
  }

  lemma StepKeeps(w: World, a: Action)
    requires Inv(w) && Allowed(w, a)
    ensures Inv(Do(w, a))
  {
    match a
    case Activate(ws) => ActivateKeeps(w, ws);
    case Adopt(generation, ws) => AdoptKeeps(w, generation, ws);
    case Request(ws) => RefreshKeeps(w, ws);
    case GoLive => LiveKeeps(w);
    case ShowsWorkspace(shown) =>
      var v := Do(w, a);
      assert forall i | 0 <= i < |w.fetches| :: Current(v, i) == Current(w, i);
    case Answers(i) => SettleKeeps(w, i);
    case Fails(i) => SettleKeeps(w, i);
    case Finishes(i) => FinishKeeps(w, i);
    case _ => LoadKeeps(w, a);
  }

  lemma {:induction false} RunKeeps(w: World, actions: seq<Action>)
    requires Inv(w) && LoadsFit(w) && AllAllowed(w, actions)
    ensures Inv(Run(w, actions)) && LoadsFit(Run(w, actions))
    decreases |actions|
  {
    if actions != [] {
      StepKeeps(w, actions[0]);
      LoadsStayFit(w, actions[0]);
      RunKeeps(Do(w, actions[0]), actions[1..]);
    }
  }

  /** In every interleaving: one fetch of the current generation at most, only fresh commits
      by the coordinator, an activation's own load fresh exactly if no request was accepted
      before it committed, and every accepted request served or about to be. */
  lemma EveryInterleavingIsFresh(actions: seq<Action>)
    requires AllAllowed(START, actions)
    ensures var w := Run(START, actions);
      && (forall i, j | 0 <= i < j < |w.fetches| ::
            !(w.fetches[i].generation == w.scope.generation && w.fetches[j].generation == w.scope.generation))
      && (forall c | c in w.commits :: FreshCommit(c))
      && (forall c | c in w.loaded ::
            && IsActive(c.scope, c.fetch.generation, c.fetch.workspaceId)
            && (FreshCommit(c) <==> c.lastAccepted.None?))
      && (w.lastAccepted.Some? ==>
            || (w.lastStarted.Some? && w.lastAccepted.value <= w.lastStarted.value)
            || (w.coord.trailing == Some(w.scope.generation)
                && exists i | 0 <= i < |w.fetches| :: w.fetches[i].generation == w.scope.generation))
  {
    RunKeeps(START, actions);
    var w := Run(START, actions);
    assert forall i | 0 <= i < |w.fetches| :: Current(w, i) == (w.fetches[i].generation == w.scope.generation);
  }

  /** A fetch that is owed does start: when the one in flight finishes, another begins. */
  lemma OwedFetchStarts(w: World, i: nat)
    requires Inv(w) && i < |w.fetches| && w.fetches[i].generation == w.scope.generation && w.coord.trailing.Some?
    ensures var v := Do(w, Finishes(i));
      && v.lastStarted == Some(w.clock) && v.coord.trailing.None?
      && (v.lastAccepted.Some? ==> v.lastAccepted.value < w.clock)
      && exists j | 0 <= j < |v.fetches| ::
          v.fetches[j] == Fetch(w.scope.generation, w.fetches[i].workspaceId, w.clock, false)
  {
    assert Current(w, i);
    var v := Do(w, Finishes(i));
    assert v.fetches[|v.fetches| - 1] == Fetch(w.scope.generation, w.fetches[i].workspaceId, w.clock, false);
  }

  /** Adopting over a workspace that is already set would lose a request: the fetch in
      flight finishes for the old workspace and nothing is started for the new one. */
  lemma AdoptingOverAWorkspaceLosesARequest()
    ensures var w := Run(START,
      [Activate(Some("a")), Request("a"), Adopt(1, "b"), Request("b"), Fails(0), Finishes(0)]);
      w.lastAccepted == Some(3) && w.lastStarted == Some(1) && w.coord == RESET && w.fetches == []
  {
    var w2 := Do(Do(START, Activate(Some("a"))), Request("a"));
    assert w2.fetches == [Fetch(1, "a", 1, false)];
    var w4 := Do(Do(w2, Adopt(1, "b")), Request("b"));
    assert w4.coord == Coord(None, Some(1), Some(1)) && w4.lastAccepted == Some(3);
    SixTurns(START, Activate(Some("a")), Request("a"), Adopt(1, "b"), Request("b"), Fails(0), Finishes(0));
  }

  lemma TwoTurns(w: World, a: Action, b: Action, rest: seq<Action>)
    ensures Run(w, [a, b] + rest) == Run(Do(Do(w, a), b), rest)
  {
    assert ([a, b] + rest)[1..] == [b] + rest;
    assert ([b] + rest)[1..] == rest;
  }

  lemma SixTurns(w: World, a: Action, b: Action, c: Action, d: Action, e: Action, f: Action)
    ensures Run(w, [a, b, c, d, e, f]) == Do(Do(Do(Do(Do(Do(w, a), b), c), d), e), f)
  {
    assert [a, b, c, d, e, f] == [a, b] + [c, d, e, f] && [c, d, e, f] == [c, d] + [e, f] && [e, f] == [e, f] + [];
    TwoTurns(w, a, b, [c, d, e, f]);
    TwoTurns(Do(Do(w, a), b), c, d, [e, f]);
    TwoTurns(Do(Do(Do(Do(w, a), b), c), d), e, f, []);
  }

  /** Loading the workspace that is shown once more: a refresh is accepted and committed in
      the meantime, and the older load then takes its place. */
  lemma LoadGoesBack()
    ensures var actions := [Activate(Some("a")), Loads, Request("a"), Answers(0), LoadAnswers(0)];
      var w0 := START.(shown := Some("a"));
      AllAllowed(w0, actions)
      && Run(w0, actions).commits == [Commit(Fetch(1, "a", 2, false), Scope(1, Some("a")), Some(2))]
      && Run(w0, actions).loaded == [Commit(Fetch(1, "a", 1, false), Scope(1, Some("a")), Some(2))]
  {
    var w0 := START.(shown := Some("a"));
    var w1 := Do(w0, Activate(Some("a")));
    assert w1 == World(Scope(1, Some("a")), RESET, Some("a"), [], 1, None, None, [], [], []);
    var w2 := Do(w1, Loads);
    assert w2.loads == [Fetch(1, "a", 1, false)] && w2.fetches == [] && w2.commits == [] && w2.loaded == [];
    var w3 := Do(w2, Request("a"));
    assert w3.fetches == [Fetch(1, "a", 2, false)] && w3.lastAccepted == Some(2) && w3.coord.trailing == None;
    var w4 := Do(w3, Answers(0));
    assert w4.commits == [Commit(Fetch(1, "a", 2, false), Scope(1, Some("a")), Some(2))];
    var w5 := Do(w4, LoadAnswers(0));
    LoadGoesBackRuns(w0, w2, w3, w4, w5);
  }

  lemma LoadGoesBackRuns(w0: World, w2: World, w3: World, w4: World, w5: World)
    requires w2 == Do(Do(w0, Activate(Some("a"))), Loads) && w3 == Do(w2, Request("a"))
    requires w4 == Do(w3, Answers(0)) && w5 == Do(w4, LoadAnswers(0))
    requires Allowed(Do(w0, Activate(Some("a"))), Loads) && Allowed(w3, Answers(0)) && Allowed(w4, LoadAnswers(0))
    ensures var actions := [Activate(Some("a")), Loads, Request("a"), Answers(0), LoadAnswers(0)];
      AllAllowed(w0, actions) && Run(w0, actions) == w5
  {
    assert Run(w4, [LoadAnswers(0)]) == Run(w5, []) == w5 && AllAllowed(w4, [LoadAnswers(0)]);
    var later := [Answers(0), LoadAnswers(0)];
    assert later[1..] == [LoadAnswers(0)];
    assert Run(w3, later) == w5 && AllAllowed(w3, later);
    var from2 := [Request("a"), Answers(0), LoadAnswers(0)];
    assert from2[1..] == later;
    assert Run(w2, from2) == w5 && AllAllowed(w2, from2);
    var from1 := [Loads, Request("a"), Answers(0), LoadAnswers(0)];
    assert from1[1..] == from2;
    assert Run(Do(w0, Activate(Some("a"))), from1) == w5 && AllAllowed(Do(w0, Activate(Some("a"))), from1);
  }

  // ----- what single turns do -----

  /** Going live with nothing shown does nothing; the first time in a generation it is recorded;
      again it is a request for what is shown. */
  lemma LiveTurns(w: World)
    ensures var v := Do(w, GoLive);
      && (w.shown.None? ==> v == w.(clock := w.clock + 1))
      && (w.shown.Some? && w.coord.live != Some(w.scope.generation) ==>
            v == w.(clock := w.clock + 1, coord := w.coord.(live := Some(w.scope.generation))))
      && (w.shown.Some? && w.coord.live == Some(w.scope.generation) ==> v == Do(w, Request(w.shown.value)))
  {
  }

  /** A request for another workspace is refused; while a fetch of the generation is under way one
      more is owed; otherwise a fetch starts now. */
  lemma RequestTurns(w: World, ws: string)
    ensures var v := Do(w, Request(ws));
      && v.clock == w.clock + 1 && v.scope == w.scope && v.shown == w.shown && v.commits == w.commits
      && v.coord.live == w.coord.live
      && (w.scope.workspaceId != Some(ws) ==> v == w.(clock := v.clock))
      && (w.scope.workspaceId == Some(ws) && w.coord.refreshing == Some(w.scope.generation) ==>
            && v.coord == w.coord.(trailing := Some(w.scope.generation)) && v.fetches == w.fetches
            && v.lastAccepted == Some(w.clock) && v.lastStarted == w.lastStarted)
      && (w.scope.workspaceId == Some(ws) && w.coord.refreshing != Some(w.scope.generation) ==>
            && v.coord == w.coord.(refreshing := Some(w.scope.generation))
            && v.fetches == w.fetches + [Fetch(w.scope.generation, ws, w.clock, false)]
            && v.lastAccepted == v.lastStarted == Some(w.clock))
  {
  }

  /** An answer is committed exactly if its generation and workspace are the active ones, none is
      owed in it, and the state that is shown is of that workspace. */
  lemma AnswerCommitsExactly(w: World, i: nat)
    requires i < |w.fetches|
    ensures var f, v := w.fetches[i], Do(w, Answers(i));
      if f.generation == w.scope.generation && w.scope.workspaceId == Some(f.workspaceId)
        && w.coord.trailing != Some(f.generation) && w.shown == Some(f.workspaceId)
      then v.commits == w.commits + [Commit(f, w.scope, w.lastAccepted)]
      else v.commits == w.commits
  {
  }

  /** Finishing without one owed ends the refresh; finishing a fetch of an older generation changes
      nothing but that it is over. */
  lemma FinishTurns(w: World, i: nat)
    requires i < |w.fetches|
    ensures var f, v := w.fetches[i], Do(w, Finishes(i));
      var rest := w.(clock := w.clock + 1, fetches := w.fetches[..i] + w.fetches[i + 1..]);
      && (w.coord.refreshing != Some(f.generation) ==> v == rest)
      && (w.coord.refreshing == Some(f.generation) && w.coord.trailing != Some(f.generation) ==>
            v == rest.(coord := w.coord.(refreshing := None)))
  {
  }

  /** An activation is a new generation with nothing recorded; what was begun before is not of it.
      Adopting gives the current generation its workspace and does nothing to any other. */
  lemma ActivationTurns(w: World, ws: Option<string>, generation: nat, adopted: string)
    ensures var v := Do(w, Activate(ws));
      && v.scope == Scope(w.scope.generation + 1, ws) && v.coord == Coord(None, None, None)
      && v.lastAccepted == None && v.lastStarted == None && v.fetches == w.fetches && v.shown == w.shown
    ensures Do(w, Adopt(generation, adopted)) == w.(clock := w.clock + 1,
      scope := if generation == w.scope.generation then Scope(generation, Some(adopted)) else w.scope)
  {
  }
}
