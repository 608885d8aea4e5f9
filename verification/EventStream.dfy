/** The live event client (web/src/api.ts, `connectWorkspaceEvents`) on top of the store's
    `applyEvent` (web/src/store.ts), one atomic turn of the event loop at a time. */
module EventStream {
  import opened Ordering
  import opened RunEvents
  import opened EventFold

  datatype Connection = Connecting | Live | Offline
  datatype Catchup = Idle | Asked(after: int)
  /** Where the serialized handler stands: between events, or inside one. */
  datatype Handler = Ready | Waiting(event: Event) | Resumable(event: Event)
  datatype Connect = NotConnecting | AwaitingCatchup | AwaitingTicket

  datatype Client = Client(
    state: State,
    streamSeqs: map<string, int>,
    generation: nat,
    closed: bool,
    catchup: Catchup,
    queue: seq<Event>,
    handler: Handler,
    connect: Connect,
    reconnecting: bool,
    status: Connection)

  // ----- one turn, as a function -----

  function Cursor(c: Client, runId: string): int {
    if runId in c.streamSeqs then c.streamSeqs[runId] else 0
  }

  predicate IsPrimary(c: Client, runId: string) {
    c.state.run.Some? && c.state.run.value.id == runId
  }

  /** The sequence below which events of a stream are duplicates. */
  function StreamSeq(c: Client, runId: string): int {
    if IsPrimary(c, runId) then Max(c.state.eventSeq, Cursor(c, runId)) else Cursor(c, runId)
  }

  function OnEvent(c: Client, e: Event): Client {
    if e.workspaceId != c.state.workspaceId then c
    else c.(
      streamSeqs := c.streamSeqs[e.runId := Max(Cursor(c, e.runId), e.seqNo)],
      state := Apply(c.state, e))
  }

  function FetchMissing(c: Client): Client {
    if c.catchup.Idle? then c.(catchup := Asked(Max(0, c.state.eventSeq))) else c
  }

  function Handle(c: Client, e: Event): Client {
    if e.seqNo <= StreamSeq(c, e.runId) then c
    else if IsPrimary(c, e.runId) && e.seqNo > StreamSeq(c, e.runId) + 1 then FetchMissing(c).(handler := Waiting(e))
    else OnEvent(c, e)
  }

  function StartHead(c: Client): Client {
    if c.queue == [] || !c.handler.Ready? then c
    else Handle(c.(queue := c.queue[1..]), c.queue[0])
  }

  function Resume(c: Client): Client {
    if !c.handler.Resumable? then c else
      var e, ready := c.handler.event, c.(handler := Ready);
      if e.seqNo <= StreamSeq(c, e.runId) then ready
      else if e.seqNo > StreamSeq(c, e.runId) + 1 then ready.(status := Offline)
      else OnEvent(ready, e)
  }

  predicate BySeq(a: Event, b: Event) { a.seqNo <= b.seqNo }

  function Deliver(c: Client, events: seq<Event>): Client
    decreases |events|
  {
    if events == [] then c
    else Deliver(if events[0].seqNo > c.state.eventSeq then OnEvent(c, events[0]) else c, events[1..])
  }

  function Settle(c: Client): Client {
    c.(catchup := Idle,
       handler := if c.handler.Waiting? then Resumable(c.handler.event) else c.handler,
       connect := if c.connect.AwaitingCatchup? then AwaitingTicket else c.connect)
  }

  function FinishCatchup(c: Client, events: seq<Event>): Client {
    Settle(Deliver(c, Sort(events, BySeq)))
  }

  function ScheduleReconnect(c: Client): Client {
    if c.closed then c else c.(reconnecting := true)
  }

  function FailCatchup(c: Client): Client {
    var failed := c.(catchup := Idle);
    var handled := if c.handler.Waiting? then failed.(handler := Ready, status := Offline) else failed;
    if c.connect.AwaitingCatchup? && !c.closed
    then ScheduleReconnect(handled.(connect := NotConnecting, status := Offline))
    else handled.(connect := if c.connect.AwaitingCatchup? then NotConnecting else c.connect)
  }

  /** A message of socket `socket`; anything but the current socket is stale. */
  function OnMessage(c: Client, socket: nat, e: Event): Client {
    if socket != c.generation || c.closed || e.workspaceId != c.state.workspaceId then c
    else c.(queue := c.queue + [e])
  }

  function StartConnect(c: Client): Client {
    if c.closed then c else FetchMissing(c.(status := Connecting, connect := AwaitingCatchup, reconnecting := false))
  }

  function OpenSocket(c: Client): Client {
    if c.closed || !c.connect.AwaitingTicket? then c
    else c.(generation := c.generation + 1, connect := NotConnecting, status := Live)
  }

  function SocketLost(c: Client, socket: nat): Client {
    if socket != c.generation || c.closed then c else ScheduleReconnect(c.(status := Offline))
  }

  function Close(c: Client): Client {
    c.(closed := true, generation := c.generation + 1, reconnecting := false)
  }

  // ----- the closure's variables, updated step by step -----

  class EventClient {
    var state: State
    var streamSeqs: map<string, int>
    var generation: nat
    var closed: bool
    var catchup: Catchup
    var queue: seq<Event>
    var handler: Handler
    var connect: Connect
    var reconnecting: bool
    var status: Connection

    function Abs(): Client
      reads this
    {
      Client(state, streamSeqs, generation, closed, catchup, queue, handler, connect, reconnecting, status)
    }

    constructor (state: State, streamSeqs: map<string, int>)
      ensures Abs() == StartConnect(Client(state, streamSeqs, 0, false, Idle, [], Ready, NotConnecting, false, Offline))
    {
      this.state, this.streamSeqs := state, streamSeqs;
      generation, closed, queue, handler, reconnecting := 0, false, [], Ready, false;
      catchup, connect, status := Asked(Max(0, state.eventSeq)), AwaitingCatchup, Connecting;
    }

    method Dispatch(e: Event)
      modifies this`state, this`streamSeqs
      ensures Abs() == OnEvent(old(Abs()), e)
    {
      if e.workspaceId != state.workspaceId {
        return;
      }
      var seen := if e.runId in streamSeqs then streamSeqs[e.runId] else 0;
      streamSeqs := streamSeqs[e.runId := Max(seen, e.seqNo)];
      state := Apply(state, e);
    }

    method AskForMissing()
      modifies this`catchup
      ensures Abs() == FetchMissing(old(Abs()))
    {
      if catchup.Idle? {
        catchup := Asked(Max(0, state.eventSeq));
      }
    }

    method RunHandler()
      modifies this
      ensures Abs() == StartHead(old(Abs()))
    {
      if queue == [] || !handler.Ready? {
        return;
      }
      var e := queue[0];
      queue := queue[1..];
      var cursor := StreamSeq(Abs(), e.runId);
      if e.seqNo <= cursor {
        return;
      }
      if IsPrimary(Abs(), e.runId) && e.seqNo > cursor + 1 {
        AskForMissing();
        handler := Waiting(e);
        return;
      }
      Dispatch(e);
    }

    method ResumeHandler()
      modifies this
      ensures Abs() == Resume(old(Abs()))
    {
      if !handler.Resumable? {
        return;
      }
      var e := handler.event;
      var cursor := StreamSeq(Abs(), e.runId);
      handler := Ready;
      if e.seqNo <= cursor {
        return;
      }
      if e.seqNo > cursor + 1 {
        status := Offline;
        return;
      }
      Dispatch(e);
    }

    method CatchupArrived(events: seq<Event>)
      modifies this
      ensures Abs() == FinishCatchup(old(Abs()), events)
    {
      var sorted := Sort(events, BySeq);
      ghost var start := Abs();
      for i := 0 to |sorted|
        invariant Deliver(Abs(), sorted[i..]) == Deliver(start, sorted)
      {
        assert sorted[i..][1..] == sorted[i + 1..];
        if sorted[i].seqNo > state.eventSeq {
          Dispatch(sorted[i]);
        }
      }
      catchup := Idle;
      if handler.Waiting? {
        handler := Resumable(handler.event);
      }
      if connect.AwaitingCatchup? {
        connect := AwaitingTicket;
      }
    }

    method CatchupFailed()
      modifies this
      ensures Abs() == FailCatchup(old(Abs()))
    {
      catchup := Idle;
      if handler.Waiting? {
        handler := Ready;
        status := Offline;
      }
      if connect.AwaitingCatchup? {
        connect := NotConnecting;
        if !closed {
          status := Offline;
          reconnecting := true;
        }
      }
    }

    method ConnectAgain()
      modifies this
      ensures Abs() == StartConnect(old(Abs()))
    {
      if closed {
        return;
      }
      status, connect, reconnecting := Connecting, AwaitingCatchup, false;
      AskForMissing();
    }

    method TicketArrived()
      modifies this
      ensures Abs() == OpenSocket(old(Abs()))
    {
      if closed || !connect.AwaitingTicket? {
        return;
      }
      generation := generation + 1;
      connect, status := NotConnecting, Live;
    }

    method SocketClosed(socket: nat)
      modifies this
      ensures Abs() == SocketLost(old(Abs()), socket)
    {
      if socket != generation || closed {
        return;
      }
      status, reconnecting := Offline, true;
    }

    method Dispose()
      modifies this
      ensures Abs() == Close(old(Abs()))
    {
      closed := true;
      generation := generation + 1;
      reconnecting := false;
    }

    method MessageArrived(socket: nat, e: Event)
      modifies this`queue
      ensures Abs() == OnMessage(old(Abs()), socket, e)
    {
      if socket != generation || closed {
        return;
      }
      if e.workspaceId != state.workspaceId {
        return;
      }
      queue := queue + [e];
    }
  }

  // ----- the world: server log, network, client -----

  datatype World = World(log: seq<Event>, base: State, c: Client, answer: Option<seq<Event>>)

  datatype Action =
    | ServerAppends(event: Event)
    | MessageDelivered(socket: nat, index: nat)
    | HandlerStarts
    | HandlerResumes
    | ServerAnswers(events: seq<Event>)
    | AnswerArrives
    | RequestFails
    | ConnectStarts
    | TicketArrives
    | SocketDies(socket: nat)
    | ClientCloses

  /** What the environment may do. The socket delivers any logged event, any number of
      times, in any order or never; an answer holds the log's suffix in any order. */
  ghost predicate Allowed(w: World, a: Action) {
    match a
    case ServerAppends(e) =>
      e.seqNo == |w.log| + 1 && e.workspaceId == w.base.workspaceId
      && w.base.run.Some? && e.runId == w.base.run.value.id
    case MessageDelivered(_, i) => i < |w.log|
    case ServerAnswers(events) =>
      w.c.catchup.Asked? && w.answer.None? && 0 <= w.c.catchup.after <= |w.log|
      && multiset(events) == multiset(w.log[w.c.catchup.after..])
    case AnswerArrives => w.c.catchup.Asked? && w.answer.Some?
    case RequestFails => w.c.catchup.Asked?
    case _ => true
  }

  function Do(w: World, a: Action): World {
    match a
    case ServerAppends(e) => w.(log := w.log + [e])
    case MessageDelivered(socket, i) => if i < |w.log| then w.(c := OnMessage(w.c, socket, w.log[i])) else w
    case HandlerStarts => w.(c := StartHead(w.c))
    case HandlerResumes => w.(c := Resume(w.c))
    case ServerAnswers(events) => w.(answer := Some(events))
    case AnswerArrives => if w.answer.Some? then w.(c := FinishCatchup(w.c, w.answer.value), answer := None) else w
    case RequestFails => w.(c := FailCatchup(w.c), answer := None)
    case ConnectStarts => w.(c := StartConnect(w.c))
    case TicketArrives => w.(c := OpenSocket(w.c))
    case SocketDies(socket) => w.(c := SocketLost(w.c, socket))
    case ClientCloses => w.(c := Close(w.c))
  }

  function RunAll(w: World, actions: seq<Action>): World
    decreases |actions|
  {
    if actions == [] then w else RunAll(Do(w, actions[0]), actions[1..])
  }

  ghost predicate AllAllowed(w: World, actions: seq<Action>)
    decreases |actions|
  {
    actions == [] || (Allowed(w, actions[0]) && AllAllowed(Do(w, actions[0]), actions[1..]))
  }

  // ----- the invariant -----

  /** The client holds the fold of every prefix between its sequence and its cursor. */
  ghost predicate Synced(log: seq<Event>, base: State, c: Client)
    requires LogOk(log, base)
  {
    var cursor := StreamSeq(c, base.run.value.id);
    && c.state.workspaceId == base.workspaceId && IsPrimary(c, base.run.value.id)
    && base.eventSeq <= c.state.eventSeq <= cursor <= |log|
    && forall k | c.state.eventSeq <= k <= cursor :: FoldTo(log, base, k) == c.state
  }

  ghost predicate HandlerLogged(log: seq<Event>, h: Handler) {
    h.Ready? || Logged(log, h.event)
  }

  ghost predicate QueueLogged(log: seq<Event>, queue: seq<Event>) {
    forall e | e in queue :: Logged(log, e)
  }

  ghost predicate CatchupOk(w: World) {
    && (w.c.catchup.Asked? ==> w.base.eventSeq <= w.c.catchup.after <= w.c.state.eventSeq)
    && (w.answer.Some? ==> w.c.catchup.Asked? && exists m | w.c.catchup.after <= m <= |w.log| ::
          0 <= w.c.catchup.after && multiset(w.answer.value) == multiset(w.log[w.c.catchup.after..m]))
  }

  /** Whoever waits for a catch-up has one under way. */
  predicate Attended(c: Client) {
    (c.handler.Waiting? ==> c.catchup.Asked?) && (c.connect.AwaitingCatchup? ==> c.catchup.Asked?)
  }

  ghost predicate Inv(w: World) {
    && LogOk(w.log, w.base) && Synced(w.log, w.base, w.c)
    && QueueLogged(w.log, w.c.queue) && HandlerLogged(w.log, w.c.handler)
    && CatchupOk(w) && Attended(w.c)
  }

  // ----- each step keeps it -----

  lemma OnEventState(c: Client, e: Event, runId: string)
    requires e.workspaceId == c.state.workspaceId && e.runId == runId && IsPrimary(c, runId)
    requires e.seqNo > c.state.eventSeq
    ensures var r := OnEvent(c, e);
      && r.state == Apply(c.state, e) && r.state.workspaceId == c.state.workspaceId && IsPrimary(r, runId)
      && (r.state.eventSeq == e.seqNo || r.state == c.state)
      && StreamSeq(r, runId) == Max(StreamSeq(c, runId), e.seqNo)
  {
    ApplyFrame(c.state, e);
    ApplyAdvances(c.state, e);
  }

  /** Applying the next event, or one the client already holds, keeps the client synced. */
  lemma OnEventSyncs(log: seq<Event>, base: State, c: Client, e: Event)
    requires LogOk(log, base) && Synced(log, base, c) && Logged(log, e)
    requires c.state.eventSeq < e.seqNo <= StreamSeq(c, base.run.value.id) + 1
    ensures Synced(log, base, OnEvent(c, e))
    ensures StreamSeq(OnEvent(c, e), base.run.value.id) == Max(StreamSeq(c, base.run.value.id), e.seqNo)
    ensures OnEvent(c, e).state.eventSeq >= c.state.eventSeq
  {
    OnEventState(c, e, base.run.value.id);
    NextFold(log, base, c.state, e);
    SyncedNext(log, base, c, OnEvent(c, e), e.seqNo);
  }

  /** A client that moved on to the fold at `n`, or was there already, is synced. */
  lemma SyncedNext(log: seq<Event>, base: State, c: Client, r: Client, n: int)
    requires LogOk(log, base) && Synced(log, base, c) && IsPrimary(r, base.run.value.id)
    requires c.state.eventSeq < n <= StreamSeq(c, base.run.value.id) + 1 && n <= |log|
    requires r.state.workspaceId == c.state.workspaceId && r.state == FoldTo(log, base, n)
    requires r.state.eventSeq == n || r.state == c.state
    requires StreamSeq(r, base.run.value.id) == Max(StreamSeq(c, base.run.value.id), n)
    ensures Synced(log, base, r)
  {
    forall k | r.state.eventSeq <= k <= StreamSeq(r, base.run.value.id) ensures FoldTo(log, base, k) == r.state {
      assert k == n || FoldTo(log, base, k) == c.state;
      assert FoldTo(log, base, n) == r.state;
      if k != n && n <= StreamSeq(c, base.run.value.id) {
        assert FoldTo(log, base, n) == c.state;
      }
    }
  }

  lemma AppendKeeps(w: World, e: Event)
    requires Inv(w) && Allowed(w, ServerAppends(e))
    ensures Inv(Do(w, ServerAppends(e)))
  {
    var v := Do(w, ServerAppends(e));
    SyncedGrows(w.log, w.base, w.c, e);
    AnswerGrows(w, e);
  }

  lemma AnswerGrows(w: World, e: Event)
    requires CatchupOk(w)
    ensures CatchupOk(w.(log := w.log + [e]))
  {
    if w.answer.Some? {
      var after := w.c.catchup.after;
      var m :| after <= m <= |w.log| && 0 <= after && multiset(w.answer.value) == multiset(w.log[after..m]);
      assert (w.log + [e])[after..m] == w.log[after..m];
    }
  }

  lemma SyncedGrows(log: seq<Event>, base: State, c: Client, e: Event)
    requires LogOk(log, base) && LogOk(log + [e], base) && Synced(log, base, c)
    ensures Synced(log + [e], base, c)
  {
    forall k | c.state.eventSeq <= k <= StreamSeq(c, base.run.value.id) ensures FoldTo(log + [e], base, k) == c.state {
      FoldToGrows(log, base, k, e);
    }
  }

  lemma StartKeeps(w: World)
    requires Inv(w)
    ensures Inv(Do(w, HandlerStarts))
  {
    var c := w.c;
    if c.queue != [] && c.handler.Ready? {
      var e, popped := c.queue[0], c.(queue := c.queue[1..]);
      assert e in c.queue && forall x | x in popped.queue :: x in c.queue;
      var seqNo := StreamSeq(popped, e.runId);
      if seqNo < e.seqNo <= seqNo + 1 {
        OnEventSyncs(w.log, w.base, popped, e);
      }
    }
  }

  lemma ResumeKeeps(w: World)
    requires Inv(w)
    ensures Inv(Do(w, HandlerResumes))
  {
    var c := w.c;
    if c.handler.Resumable? {
      var e := c.handler.event;
      var seqNo := StreamSeq(c, e.runId);
      if seqNo < e.seqNo <= seqNo + 1 {
        OnEventSyncs(w.log, w.base, c.(handler := Ready), e);
      }
    }
  }

  lemma SegmentSorted(log: seq<Event>, base: State, after: int, m: int)
    requires LogOk(log, base) && 0 <= after <= m <= |log|
    ensures SortedBy(log[after..m], BySeq)
    ensures forall x, y | x in log[after..m] && y in log[after..m] && x.seqNo == y.seqNo :: x == y
    ensures forall x | x in log[after..m] :: x.seqNo <= m
  {
    var segment := log[after..m];
    forall i | 0 <= i < |segment| ensures segment[i].seqNo == after + i + 1 {}
  }

  /** Sorting any arrangement of a log segment gives the segment. */
  lemma SortedAnswer(log: seq<Event>, base: State, after: int, m: int, events: seq<Event>)
    requires LogOk(log, base) && 0 <= after <= m <= |log|
    requires multiset(events) == multiset(log[after..m])
    ensures Sort(events, BySeq) == log[after..m]
  {
    SegmentSorted(log, base, after, m);
    SortSorts(events, BySeq);
    SameElements(Sort(events, BySeq), log[after..m]);
    SortedUnique(Sort(events, BySeq), log[after..m], BySeq);
  }

  /** Delivering a log segment that starts at or before the client's sequence keeps it
      synced and brings it to the segment's end. */
  lemma {:induction false} DeliverSyncs(log: seq<Event>, base: State, c: Client, from: int, m: int)
    requires LogOk(log, base) && Synced(log, base, c)
    requires 0 <= from <= m <= |log| && from <= StreamSeq(c, base.run.value.id)
    ensures var d := Deliver(c, log[from..m]);
      && Synced(log, base, d) && StreamSeq(d, base.run.value.id) >= m
      && d.state.eventSeq >= c.state.eventSeq
      && d == c.(state := d.state, streamSeqs := d.streamSeqs)
    decreases m - from
  {
    if from < m {
      var e := log[from];
      assert log[from..m][0] == e && log[from..m][1..] == log[from + 1..m];
      var next := if e.seqNo > c.state.eventSeq then OnEvent(c, e) else c;
      if e.seqNo > c.state.eventSeq {
        OnEventSyncs(log, base, c, e);
      }
      DeliverSyncs(log, base, next, from + 1, m);
    } else {
      assert log[from..m] == [];
    }
  }

  /** What an arriving answer brings: a segment of the log, from the asked position on. */
  lemma AnswerIsSegment(w: World) returns (after: int, m: int)
    requires Inv(w) && Allowed(w, AnswerArrives)
    ensures 0 <= after == w.c.catchup.after <= w.c.state.eventSeq && after <= m <= |w.log|
    ensures multiset(w.answer.value) == multiset(w.log[after..m])
    ensures Do(w, AnswerArrives).c == Settle(Deliver(w.c, w.log[after..m]))
  {
    after := w.c.catchup.after;
    m :| after <= m <= |w.log| && multiset(w.answer.value) == multiset(w.log[after..m]);
    SortedAnswer(w.log, w.base, after, m, w.answer.value);
  }

  lemma AnswerKeeps(w: World)
    requires Inv(w) && Allowed(w, AnswerArrives)
    ensures Inv(Do(w, AnswerArrives))
  {
    var after, m := AnswerIsSegment(w);
    DeliverSyncs(w.log, w.base, w.c, after, m);
  }

  lemma StepKeeps(w: World, a: Action)
    requires Inv(w) && Allowed(w, a)
    ensures Inv(Do(w, a))
  {
    match a
    case ServerAppends(e) => AppendKeeps(w, e);
    case HandlerStarts => StartKeeps(w);
    case HandlerResumes => ResumeKeeps(w);
    case AnswerArrives => AnswerKeeps(w);
    case ServerAnswers(events) =>
      assert w.log[w.c.catchup.after..|w.log|] == w.log[w.c.catchup.after..];
    case _ =>
  }

  lemma {:induction false} RunKeeps(w: World, actions: seq<Action>)
    requires Inv(w) && AllAllowed(w, actions)
    ensures Inv(RunAll(w, actions))
    decreases |actions|
  {
    if actions != [] {
      StepKeeps(w, actions[0]);
      RunKeeps(Do(w, actions[0]), actions[1..]);
    }
  }

  // ----- the theorem -----

  /** A connection opened on a snapshot of the primary run. */
  ghost predicate Starts(w: World) {
    && LogOk(w.log, w.base)
    && w.c == StartConnect(Client(w.base, w.c.streamSeqs, 0, false, Idle, [], Ready, NotConnecting, false, Offline))
    && Cursor(w.c, w.base.run.value.id) <= w.base.eventSeq
    && w.answer == None
  }

  lemma StartsInvariant(w: World)
    requires Starts(w)
    ensures Inv(w)
  {}

  /** Whatever the network drops, repeats or reorders, the client state is the in-order
      fold of the log's first `eventSeq` events: none skipped, none applied twice. */
  lemma EveryRunFoldsAPrefix(w: World, actions: seq<Action>)
    requires Starts(w) && AllAllowed(w, actions)
    ensures var v := RunAll(w, actions);
      && 0 <= v.c.state.eventSeq <= |v.log|
      && v.c.state == FoldTo(v.log, v.base, v.c.state.eventSeq)
      && v.base == w.base && w.log <= v.log
  {
    StartsInvariant(w);
    RunKeeps(w, actions);
    RunLog(w, actions);
  }

  lemma {:induction false} RunLog(w: World, actions: seq<Action>)
    ensures RunAll(w, actions).base == w.base && w.log <= RunAll(w, actions).log
    decreases |actions|
  {
    if actions != [] { RunLog(Do(w, actions[0]), actions[1..]); }
  }

  /** When an answer arrives the client is as far as the server was when it answered. */
  lemma CatchupReachesTheAnswer(w: World)
    requires Inv(w) && Allowed(w, AnswerArrives)
    ensures var v := Do(w, AnswerArrives);
      && (forall e | e in w.answer.value :: e.seqNo <= StreamSeq(v.c, w.base.run.value.id) <= |v.log|)
      && v.c.state == FoldTo(v.log, v.base, StreamSeq(v.c, w.base.run.value.id))
  {
    var after, m := AnswerIsSegment(w);
    DeliverSyncs(w.log, w.base, w.c, after, m);
    SegmentSorted(w.log, w.base, after, m);
    SameElements(w.answer.value, w.log[after..m]);
  }
}
