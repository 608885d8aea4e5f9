/** That the live event client gets on: what each turn does with the event at hand, that
    nobody waits in vain, and that the whole log can always be reached (web/src/api.ts:622-760). */
module EventProgress {
  import opened Ordering
  import opened RunEvents
  import opened EventFold
  import opened EventStream

  // ----- the event at hand -----

  /** The sequence of the primary stream is the further of the state's and the stream's own; that
      of another stream is its own alone. */
  lemma SequenceOfAStream(c: Client, runId: string)
    ensures var own := if runId in c.streamSeqs then c.streamSeqs[runId] else 0;
      if c.state.run.Some? && c.state.run.value.id == runId
      then
        && StreamSeq(c, runId) in {own, c.state.eventSeq}
        && StreamSeq(c, runId) >= own && StreamSeq(c, runId) >= c.state.eventSeq
      else StreamSeq(c, runId) == own
  {
  }

  predicate AtHand(w: World, e: Event) { w.c.handler.Ready? && w.c.queue != [] && w.c.queue[0] == e }

  function Primary(w: World): string
    requires w.base.run.Some?
  {
    w.base.run.value.id
  }

  /** An event that is held already is dropped. */
  lemma HeldEventIsDropped(w: World, e: Event)
    requires AtHand(w, e) && e.seqNo <= StreamSeq(w.c, e.runId)
    ensures Do(w, HandlerStarts) == w.(c := w.c.(queue := w.c.queue[1..]))
  {
  }

  /** The next event in order is applied, and the stream has come as far as that event. */
  lemma NextEventIsApplied(w: World, e: Event)
    requires Inv(w) && AtHand(w, e) && e.seqNo == StreamSeq(w.c, Primary(w)) + 1
    ensures var v := Do(w, HandlerStarts);
      && StreamSeq(v.c, Primary(w)) == e.seqNo
      && v.c.state == Apply(w.c.state, e) == FoldTo(w.log, w.base, e.seqNo)
      && v.c.handler.Ready? && v.c.queue == w.c.queue[1..] && v.c.catchup == w.c.catchup
  {
    var popped := w.c.(queue := w.c.queue[1..]);
    assert e in w.c.queue && Logged(w.log, e);
    OnEventSyncs(w.log, w.base, popped, e);
    NextFold(w.log, w.base, w.c.state, e);
  }

  /** An event beyond a gap is kept while a catch-up from the state's sequence is under way. */
  lemma GapStartsACatchup(w: World, e: Event)
    requires Inv(w) && AtHand(w, e) && e.seqNo > StreamSeq(w.c, Primary(w)) + 1
    ensures var v := Do(w, HandlerStarts);
      && v.c.handler == Waiting(e) && v.c.catchup.Asked? && v.c.state == w.c.state
      && (w.c.catchup.Idle? ==> v.c.catchup.after == w.c.state.eventSeq)
      && (w.c.catchup.Asked? ==> v.c.catchup == w.c.catchup)
  {
    assert e in w.c.queue && Logged(w.log, e);
  }

  /** Events of other streams are never held up: an unseen one is delivered at once, and moves
      no cursor but its stream's. */
  lemma OtherStreamsAreDelivered(c: Client, e: Event)
    requires !IsPrimary(c, e.runId) && e.workspaceId == c.state.workspaceId
    ensures var own := if e.runId in c.streamSeqs then c.streamSeqs[e.runId] else 0;
      var r := Handle(c, e);
      && (e.seqNo <= own ==> r == c)
      && (e.seqNo > own ==>
            && r.state == Apply(c.state, e) && r.catchup == c.catchup && r.handler == c.handler
            && e.runId in r.streamSeqs && r.streamSeqs[e.runId] == e.seqNo
            && r.streamSeqs == c.streamSeqs[e.runId := e.seqNo])
  {
  }

  // ----- nobody waits in vain -----

  /** In every run a waiting handler, and a connection that is being opened, have a request on
      its way, whose answer or failure releases them. */
  lemma EveryWaitIsReleased(w: World, actions: seq<Action>)
    requires Starts(w) && AllAllowed(w, actions)
    ensures var v := RunAll(w, actions);
      && (v.c.handler.Waiting? || v.c.connect.AwaitingCatchup? ==> v.c.catchup.Asked?)
      && Released(v, Do(v, RequestFails))
      && (v.answer.Some? ==> Released(v, Do(v, AnswerArrives)))
  {
    StartsInvariant(w);
    RunKeeps(w, actions);
    var v := RunAll(w, actions);
    if v.answer.Some? {
      var after, m := AnswerIsSegment(v);
      DeliverSyncs(v.log, v.base, v.c, after, m);
    }
  }

  /** A waiting handler may go on or has gone offline; a connection goes on to its ticket or is
      to be tried again. */
  predicate Released(v: World, u: World) {
    && u.c.catchup.Idle? && u.answer.None?
    && (v.c.handler.Waiting? ==>
          u.c.handler == Resumable(v.c.handler.event) || (u.c.handler.Ready? && u.c.status.Offline?))
    && (v.c.connect.AwaitingCatchup? ==>
          || u.c.connect.AwaitingTicket?
          || (u.c.connect.NotConnecting? && (v.c.closed || (u.c.reconnecting && u.c.status.Offline?))))
  }

  /** A handler that goes on has the event behind it, or the client is offline. */
  lemma ResumedOrOffline(w: World)
    requires Inv(w) && w.c.handler.Resumable?
    ensures var v := Do(w, HandlerResumes);
      && v.c.handler.Ready? && v.c.queue == w.c.queue
      && (StreamSeq(v.c, Primary(w)) >= w.c.handler.event.seqNo || v.c.status.Offline?)
  {
    var e, ready := w.c.handler.event, w.c.(handler := Ready);
    if e.seqNo == StreamSeq(ready, e.runId) + 1 {
      OnEventSyncs(w.log, w.base, ready, e);
    }
  }

  // ----- the whole log can be reached -----

  function Suffix(w: World): seq<Event> {
    if w.c.catchup.Asked? && 0 <= w.c.catchup.after <= |w.log| then w.log[w.c.catchup.after..] else []
  }

  /** A client that holds the whole log. */
  ghost predicate Current(w: World)
    requires LogOk(w.log, w.base)
  {
    && w.c.state == FoldTo(w.log, w.base, |w.log|) && StreamSeq(w.c, w.base.run.value.id) == |w.log|
  }

  /** The server answers with all it has, and the answer arrives. */
  lemma AnswerMakesCurrent(w: World)
    requires Inv(w) && w.c.catchup.Asked? && w.answer.None?
    ensures var answered := Do(w, ServerAnswers(Suffix(w)));
      var v := Do(answered, AnswerArrives);
      && Allowed(w, ServerAnswers(Suffix(w))) && Allowed(answered, AnswerArrives)
      && Inv(v) && v.log == w.log && v.base == w.base && v.answer == None && Current(v)
      && v.c == Settle(w.c).(state := v.c.state, streamSeqs := v.c.streamSeqs)
  {
    var answered := Do(w, ServerAnswers(Suffix(w)));
    StepKeeps(w, ServerAnswers(Suffix(w)));
    StepKeeps(answered, AnswerArrives);
    var after := w.c.catchup.after;
    assert w.log[after..|w.log|] == w.log[after..];
    SortedAnswer(w.log, w.base, after, |w.log|, Suffix(w));
    DeliverSyncs(w.log, w.base, w.c, after, |w.log|);
  }

  lemma Two(w: World, a: Action, b: Action, rest: seq<Action>)
    ensures RunAll(w, [a, b] + rest) == RunAll(Do(Do(w, a), b), rest)
    ensures AllAllowed(w, [a, b] + rest) <==>
      Allowed(w, a) && Allowed(Do(w, a), b) && AllAllowed(Do(Do(w, a), b), rest)
  {
    assert ([a, b] + rest)[1..] == [b] + rest;
    assert ([b] + rest)[1..] == rest;
  }

  /** From every state in which an event beyond a gap is at hand and no answer is on its way:
      the handler asks, the server answers, the answer arrives, the handler goes on; then the
      client holds the whole log and the handler is ready. */
  lemma GapCloses(w: World, e: Event)
    requires Inv(w) && AtHand(w, e) && e.seqNo > StreamSeq(w.c, Primary(w)) + 1 && w.answer.None?
    ensures var asked := Do(w, HandlerStarts);
      var actions := [HandlerStarts, ServerAnswers(Suffix(asked)), AnswerArrives, HandlerResumes];
      var v := RunAll(w, actions);
      && AllAllowed(w, actions) && Inv(v) && v.log == w.log && v.base == w.base
      && v.c.handler.Ready? && v.c.catchup.Idle? && v.c.queue == w.c.queue[1..] && Current(v)
  {
    var asked := Do(w, HandlerStarts);
    GapStartsACatchup(w, e);
    StepKeeps(w, HandlerStarts);
    AnswerMakesCurrent(asked);
    var arrived := Do(Do(asked, ServerAnswers(Suffix(asked))), AnswerArrives);
    StepKeeps(arrived, HandlerResumes);
    assert arrived.c.handler == Resumable(e) && Logged(w.log, e);
    Two(w, HandlerStarts, ServerAnswers(Suffix(asked)), [AnswerArrives, HandlerResumes]);
    assert [HandlerStarts, ServerAnswers(Suffix(asked)), AnswerArrives, HandlerResumes]
      == [HandlerStarts, ServerAnswers(Suffix(asked))] + [AnswerArrives, HandlerResumes];
    Two(Do(asked, ServerAnswers(Suffix(asked))), AnswerArrives, HandlerResumes, []);
    assert [AnswerArrives, HandlerResumes] + [] == [AnswerArrives, HandlerResumes];
  }

  /** However a run went, unless it closed the client it can go on so that the client holds the
      whole log. */
  lemma EveryRunCanCatchUp(w: World, actions: seq<Action>) returns (more: seq<Action>)
    requires Starts(w) && AllAllowed(w, actions) && !RunAll(w, actions).c.closed
    ensures var v := RunAll(w, actions);
      && AllAllowed(v, more)
      && var u := RunAll(v, more);
      && u.log == v.log && u.base == w.base && LogOk(u.log, u.base) && Current(u)
  {
    StartsInvariant(w);
    RunKeeps(w, actions);
    RunLog(w, actions);
    var v := RunAll(w, actions);
    var first := if v.answer.Some? then AnswerArrives else ConnectStarts;
    var asked := Do(Do(v, first), ConnectStarts);
    StepKeeps(v, first);
    if v.answer.Some? {
      var after, m := AnswerIsSegment(v);
      DeliverSyncs(v.log, v.base, v.c, after, m);
    }
    StepKeeps(Do(v, first), ConnectStarts);
    AnswerMakesCurrent(asked);
    more := [first, ConnectStarts] + ([ServerAnswers(Suffix(asked)), AnswerArrives] + []);
    Two(v, first, ConnectStarts, [ServerAnswers(Suffix(asked)), AnswerArrives] + []);
    Two(asked, ServerAnswers(Suffix(asked)), AnswerArrives, []);
  }

  // ----- sockets -----

  /** A ticket opens a socket, whose number no earlier one has; what earlier ones still send is
      ignored. */
  lemma OpenedSocketIsTheOnlyOne(c: Client, socket: nat, e: Event)
    requires !c.closed && c.connect.AwaitingTicket? && socket <= c.generation
    ensures var r := OpenSocket(c);
      && r.status.Live? && r.connect.NotConnecting? && OnMessage(r, socket, e) == r && SocketLost(r, socket) == r
  {
  }

  /** The current socket's messages for the workspace are queued in the order they come; its loss
      is shown and has the connection tried again. */
  lemma CurrentSocketCounts(c: Client, e: Event)
    requires !c.closed
    ensures e.workspaceId == c.state.workspaceId ==> OnMessage(c, c.generation, e) == c.(queue := c.queue + [e])
    ensures e.workspaceId != c.state.workspaceId ==> OnMessage(c, c.generation, e) == c
    ensures SocketLost(c, c.generation) == c.(status := Offline, reconnecting := true)
  {
  }

  /** A connection that is tried again shows so and asks for what is missing. */
  lemma ConnectingAsks(c: Client)
    requires !c.closed
    ensures var r := StartConnect(c);
      && r.status.Connecting? && r.connect.AwaitingCatchup? && !r.reconnecting && r.catchup.Asked?
      && r.state == c.state && r.queue == c.queue && r.handler == c.handler
      && (c.catchup.Asked? ==> r.catchup == c.catchup)
      && (c.catchup.Idle? ==> r.catchup.after == Max(0, c.state.eventSeq))
  {
  }

  /** A closed client stays closed: no message, ticket, retry or loss changes it. */
  lemma ClosedStaysClosed(c: Client, socket: nat, e: Event)
    ensures var r := Close(c);
      && r.closed && !r.reconnecting && OnMessage(r, socket, e) == r && StartConnect(r) == r
      && OpenSocket(r) == r && SocketLost(r, socket) == r
  {
  }
}
