/** Snapshots that replace the state while events stream in (web/src/workspace-snapshot.ts,
    crates/server/src/workspace_state.rs). The server's chat holds none of the notices that
    the client makes of events. */
module EventSnapshots {
  import opened Ordering
  import opened RunEvents
  import opened EventFold
  import opened EventStream

  /** What the server sends after `m` events of the run: its own chat, and the graph and the
      run that those events give. */
  function Snapshot(log: seq<Event>, base: State, m: int, chat: seq<Message>): State {
    FoldTo(log, base, m).(eventSeq := m, messages := chat)
  }

  ghost predicate ServerChat(chat: seq<Message>) { forall m | m in chat :: !IsNotice(m.id) }

  /** A snapshot replaces the state but for the notices it lacks. */
  function Committed(c: Client, snapshot: State): Client { c.(state := PreserveNotices(c.state, snapshot)) }

  datatype Move =
    | Stream(action: Action)
    | Commit(at: int, chat: seq<Message>)

  function Make(w: World, move: Move): World {
    match move
    case Stream(a) => Do(w, a)
    case Commit(m, chat) => w.(c := Committed(w.c, Snapshot(w.log, w.base, m, chat)))
  }

  function MakeAll(w: World, moves: seq<Move>): World
    decreases |moves|
  {
    if moves == [] then w else MakeAll(Make(w, moves[0]), moves[1..])
  }

  // ----- the views of the log -----

  /** What the log's prefixes show, by their length. */
  function Views(w: World): (views: seq<State>)
    ensures |views| == |w.log| + 1
  {
    seq(|w.log| + 1, k requires 0 <= k <= |w.log| => ViewAt(w.log, w.base, k))
  }

  /** An event takes one view to the next; it moves the sequence or is a notice held already. */
  ghost predicate StepRight(s: State, t: State, n: int, before: State, after: State) {
    View(t) == after && (t.eventSeq == n || (t == s && before == after))
  }

  /** These are views of the log: they belong to its run, and its events lead from each to
      the next. */
  ghost predicate AreViews(w: World, views: seq<State>) {
    && LogOk(w.log, w.base) && |views| == |w.log| + 1
    && (forall k | w.base.eventSeq <= k <= |w.log| ::
          views[k].workspaceId == w.base.workspaceId && views[k].run.Some?
            && views[k].run.value.id == w.base.run.value.id)
    && (forall n, s: State | w.base.eventSeq < n <= |w.log| && View(s) == views[n - 1] && s.eventSeq < n ::
          StepRight(s, Apply(s, w.log[n - 1]), n, views[n - 1], views[n]))
  }

  lemma ViewsAreViews(w: World)
    requires LogOk(w.log, w.base)
    ensures AreViews(w, Views(w))
  {
    forall k | w.base.eventSeq <= k <= |w.log|
      ensures Views(w)[k].workspaceId == w.base.workspaceId
           && Views(w)[k].run.Some? && Views(w)[k].run.value.id == w.base.run.value.id
    {
      FoldBounds(w.log, w.base, k);
    }
    forall n, s: State | w.base.eventSeq < n <= |w.log| && View(s) == Views(w)[n - 1] && s.eventSeq < n
      ensures StepRight(s, Apply(s, w.log[n - 1]), n, Views(w)[n - 1], Views(w)[n])
    {
      NextView(w.log, w.base, s, n);
    }
  }

  lemma ViewsGrow(w: World, e: Event)
    ensures Views(w.(log := w.log + [e]))[..|w.log| + 1] == Views(w)
  {
    forall k | 0 <= k <= |w.log| ensures ViewAt(w.log + [e], w.base, k) == ViewAt(w.log, w.base, k) {
      FoldToGrows(w.log, w.base, k, e);
    }
  }

  // ----- when the client may go on from where it is -----

  function Seq(w: World): int
    requires w.base.run.Some?
  {
    StreamSeq(w.c, w.base.run.value.id)
  }

  /** The state is that of the log's first `eventSeq` events, messages aside. */
  ghost predicate Folds(w: World, views: seq<State>) {
    w.base.eventSeq <= w.c.state.eventSeq < |views| && 0 <= w.c.state.eventSeq
      && View(w.c.state) == views[w.c.state.eventSeq]
  }

  /** The state is also that of the events up to the stream's sequence, after which the next
      event from the socket is applied. */
  ghost predicate Onward(w: World, views: seq<State>)
    requires w.base.run.Some?
  {
    0 <= Seq(w) < |views| && View(w.c.state) == views[Seq(w)]
  }

  /** Nothing but messages changed from position `k` to position `m`. */
  ghost predicate Quiet(views: seq<State>, k: int, m: int) {
    forall j | 0 <= k <= j <= m < |views| :: views[j] == views[m]
  }

  /** Where the answer in flight ends. */
  function Until(w: World): int {
    if w.c.catchup.Asked? && w.answer.Some? then w.c.catchup.after + |w.answer.value| else 0
  }

  /** From position `from` an arriving answer sets in without a jump, and does not go back on
      what is shown at the cursor. */
  ghost predicate CatchupFits(w: World, views: seq<State>, from: int, cursor: int) {
    && (w.c.catchup.Asked? ==> Quiet(views, from, w.c.catchup.after))
    && (w.answer.Some? && 0 <= from < Until(w) < cursor < |views| ==> views[Until(w)] == views[cursor])
  }

  /** A request in flight is for a segment of the log. */
  ghost predicate RequestOk(w: World)
    requires LogOk(w.log, w.base)
  {
    && (w.c.catchup.Asked? ==> w.base.eventSeq <= w.c.catchup.after <= |w.log|)
    && (w.answer.Some? ==>
          && w.c.catchup.Asked? && Until(w) <= |w.log|
          && multiset(w.answer.value) == multiset(w.log[w.c.catchup.after..Until(w)]))
  }

  ghost predicate Plumbed(w: World) {
    && LogOk(w.log, w.base) && RequestOk(w)
    && QueueLogged(w.log, w.c.queue) && HandlerLogged(w.log, w.c.handler)
  }

  ghost predicate Shows(w: World, views: seq<State>)
    requires w.base.run.Some?
  {
    Folds(w, views) && Onward(w, views) && CatchupFits(w, views, w.c.state.eventSeq, Seq(w))
  }

  ghost predicate Course(w: World, views: seq<State>) { Plumbed(w) && AreViews(w, views) && Shows(w, views) }

  ghost predicate OnCourse(w: World) { Course(w, Views(w)) }

  /** Replacing the state by that of the first `m` events does no harm: nothing but messages
      changed up to the stream's cursor, nor up to where an answer in flight sets in. */
  ghost predicate CommitFits(w: World, views: seq<State>, m: int)
    requires w.base.run.Some?
  {
    var cursor := Max(m, Cursor(w.c, w.base.run.value.id));
    && 0 <= w.base.eventSeq <= m <= cursor < |views|
    && views[cursor] == views[m]
    && CatchupFits(w, views, m, cursor)
  }

  /** A snapshot that has reached the stream's sequence, and the start of a request in flight,
      always fits. */
  lemma ReachingSnapshotFits(w: World, m: int)
    requires OnCourse(w) && Seq(w) <= m <= |w.log| && (w.c.catchup.Asked? ==> w.c.catchup.after <= m)
    ensures CommitFits(w, Views(w), m)
  {
    IsOfTheRun(w, Views(w));
  }

  ghost predicate MayMake(w: World, move: Move) {
    match move
    case Stream(a) => Allowed(w, a)
    case Commit(m, chat) => ServerChat(chat) && w.base.run.Some? && CommitFits(w, Views(w), m)
  }

  ghost predicate AllMayMake(w: World, moves: seq<Move>)
    decreases |moves|
  {
    moves == [] || (MayMake(w, moves[0]) && AllMayMake(Make(w, moves[0]), moves[1..]))
  }

  // ----- each move keeps the course -----

  lemma IsOfTheRun(w: World, views: seq<State>)
    requires AreViews(w, views) && Folds(w, views)
    ensures w.c.state.workspaceId == w.base.workspaceId && IsPrimary(w.c, w.base.run.value.id)
    ensures w.c.state.eventSeq <= Seq(w) && Seq(w) == Max(w.c.state.eventSeq, Cursor(w.c, w.base.run.value.id))
  {
    assert View(w.c.state).workspaceId == w.c.state.workspaceId && View(w.c.state).run == w.c.state.run;
  }

  lemma AppendFits(w: World, e: Event)
    requires OnCourse(w) && Allowed(w, ServerAppends(e))
    ensures OnCourse(Do(w, ServerAppends(e)))
  {
    var v := Do(w, ServerAppends(e));
    ViewsGrow(w, e);
    ViewsAreViews(v);
    AppendShows(w, e, Views(w), Views(v));
    AppendPlumbed(w, e);
  }

  lemma AppendPlumbed(w: World, e: Event)
    requires Plumbed(w) && Allowed(w, ServerAppends(e))
    ensures Plumbed(Do(w, ServerAppends(e)))
  {
    if w.answer.Some? {
      assert (w.log + [e])[w.c.catchup.after..Until(w)] == w.log[w.c.catchup.after..Until(w)];
    }
  }

  lemma AppendShows(w: World, e: Event, views: seq<State>, more: seq<State>)
    requires LogOk(w.log, w.base) && RequestOk(w) && |views| == |w.log| + 1 && Shows(w, views)
    requires views <= more
    ensures Shows(w.(log := w.log + [e]), more)
  {
    assert forall k | 0 <= k < |views| :: more[k] == views[k];
  }

  /** The client after the next event of the stream. */
  function Handled(w: World, e: Event, queue: seq<Event>, handler: Handler): World {
    w.(c := OnEvent(w.c, e).(queue := queue, handler := handler))
  }

  lemma HandledState(w: World, views: seq<State>, e: Event, queue: seq<Event>, handler: Handler)
    requires AreViews(w, views) && Folds(w, views) && Logged(w.log, e) && View(w.c.state) == views[e.seqNo - 1]
    requires w.c.state.eventSeq < e.seqNo && w.base.eventSeq < e.seqNo
    ensures var v := Handled(w, e, queue, handler);
      && StepRight(w.c.state, v.c.state, e.seqNo, views[e.seqNo - 1], views[e.seqNo])
      && Folds(v, views) && Seq(v) == Max(Seq(w), e.seqNo)
  {
    IsOfTheRun(w, views);
    var v := Handled(w, e, queue, handler);
    assert v.c.state == Apply(w.c.state, w.log[e.seqNo - 1]);
    assert StepRight(w.c.state, v.c.state, e.seqNo, views[e.seqNo - 1], views[e.seqNo]);
    IsOfTheRun(v, views);
  }

  lemma HandledShows(w: World, views: seq<State>, e: Event, queue: seq<Event>, handler: Handler)
    requires AreViews(w, views) && Shows(w, views) && Logged(w.log, e) && e.seqNo == Seq(w) + 1
    ensures Shows(Handled(w, e, queue, handler), views)
  {
    IsOfTheRun(w, views);
    HandledState(w, views, e, queue, handler);
    var v := Handled(w, e, queue, handler);
    assert View(v.c.state) == views[e.seqNo] && Seq(v) == e.seqNo;
    assert Onward(v, views);
    SameRequest(w, v, views, e.seqNo);
  }

  /** The same request still fits one event later. */
  lemma SameRequest(w: World, v: World, views: seq<State>, n: int)
    requires w.base.run.Some? && v.base == w.base && v.answer == w.answer && v.c.catchup == w.c.catchup
    requires 0 < n < |views| && 0 <= w.c.state.eventSeq < n && n == Seq(w) + 1
    requires CatchupFits(w, views, w.c.state.eventSeq, n - 1)
    requires v.c.state.eventSeq == n || (v.c.state.eventSeq == w.c.state.eventSeq && views[n - 1] == views[n])
    ensures CatchupFits(v, views, v.c.state.eventSeq, n)
  {
  }

  /** What the plumbing needs of a turn that leaves the log alone. */
  lemma StaysPlumbed(w: World, v: World)
    requires Plumbed(w) && v.log == w.log && v.base == w.base
    requires QueueLogged(w.log, v.c.queue) && HandlerLogged(w.log, v.c.handler)
    requires || (v.c.catchup == w.c.catchup && v.answer == w.answer) || (v.c.catchup.Idle? && v.answer.None?)
             || (v.c.catchup == Asked(w.c.state.eventSeq) && v.answer.None?
                 && w.base.eventSeq <= w.c.state.eventSeq <= |w.log|)
    ensures Plumbed(v)
  {
  }

  lemma HandledCourse(w: World, views: seq<State>, e: Event, queue: seq<Event>, handler: Handler)
    requires Course(w, views) && Logged(w.log, e) && e.seqNo == Seq(w) + 1
    requires QueueLogged(w.log, queue) && HandlerLogged(w.log, handler)
    ensures Course(Handled(w, e, queue, handler), views)
  {
    HandledShows(w, views, e, queue, handler);
    StaysPlumbed(w, Handled(w, e, queue, handler));
    SameViews(w, Handled(w, e, queue, handler));
  }

  lemma StartFits(w: World, views: seq<State>)
    requires Course(w, views)
    ensures Course(Do(w, HandlerStarts), views)
  {
    var c := w.c;
    IsOfTheRun(w, views);
    if c.queue != [] && c.handler.Ready? {
      var e := c.queue[0];
      assert e in c.queue && forall x | x in c.queue[1..] :: x in c.queue;
      if e.seqNo == Seq(w) + 1 {
        HandledCourse(w, views, e, c.queue[1..], Ready);
        assert Do(w, HandlerStarts) == Handled(w, e, c.queue[1..], Ready);
      } else {
        StartWaits(w, e);
        StaysPlumbed(w, Do(w, HandlerStarts));
        TurnFits(w, views, Do(w, HandlerStarts));
        SameViews(w, Do(w, HandlerStarts));
      }
    }
  }

  lemma StartWaits(w: World, e: Event)
    requires LogOk(w.log, w.base) && w.c.queue != [] && e == w.c.queue[0] && w.c.handler.Ready? && e.seqNo != Seq(w) + 1
    requires Logged(w.log, e) && 0 <= w.c.state.eventSeq <= Seq(w) && IsPrimary(w.c, w.base.run.value.id)
    ensures var v := Do(w, HandlerStarts);
      && v == w.(c := v.c) && v.c.state == w.c.state && v.c.streamSeqs == w.c.streamSeqs
      && v.c.queue == w.c.queue[1..] && (v.c.handler.Ready? || v.c.handler == Waiting(e))
      && (v.c.catchup == w.c.catchup || (w.c.catchup.Idle? && v.c.catchup == Asked(w.c.state.eventSeq)))
  {
    assert e.runId == w.base.run.value.id;
  }

  lemma ResumeFits(w: World, views: seq<State>)
    requires Course(w, views)
    ensures Course(Do(w, HandlerResumes), views)
  {
    var c := w.c;
    IsOfTheRun(w, views);
    if c.handler.Resumable? {
      if c.handler.event.seqNo == Seq(w) + 1 {
        HandledCourse(w, views, c.handler.event, c.queue, Ready);
        assert Do(w, HandlerResumes) == Handled(w, c.handler.event, c.queue, Ready);
      } else {
        StaysPlumbed(w, Do(w, HandlerResumes));
        TurnFits(w, views, Do(w, HandlerResumes));
        SameViews(w, Do(w, HandlerResumes));
      }
    }
  }

  /** Events the state has passed are skipped. */
  lemma {:induction false} DeliverSkips(log: seq<Event>, base: State, c: Client, from: int, m: int)
    requires LogOk(log, base) && 0 <= from <= m <= |log|
    ensures c.state.eventSeq >= m ==> Deliver(c, log[from..m]) == c
    ensures from <= c.state.eventSeq <= m ==> Deliver(c, log[from..m]) == Deliver(c, log[c.state.eventSeq..m])
    decreases m - from
  {
    if from < m && from < c.state.eventSeq {
      assert log[from..m][0] == log[from] && log[from..m][1..] == log[from + 1..m];
      DeliverSkips(log, base, c, from + 1, m);
    } else if from == m {
      assert log[from..m] == [];
    }
  }

  /** Delivering a segment to a state that is at its start brings the state to its end. */
  lemma {:induction false} DeliverFits(w: World, views: seq<State>, from: int, m: int)
    requires AreViews(w, views) && Folds(w, views) && w.c.state.eventSeq <= from <= m <= |w.log|
    requires View(w.c.state) == views[from]
    ensures var d := Deliver(w.c, w.log[from..m]);
      && d == w.c.(state := d.state, streamSeqs := d.streamSeqs)
      && Folds(w.(c := d), views) && d.state.eventSeq <= m && View(d.state) == views[m]
      && StreamSeq(d, w.base.run.value.id) == (if from == m then Seq(w) else Max(Seq(w), m))
    decreases m - from
  {
    if from < m {
      DeliverOne(w, views, from, m);
      DeliverFits(w.(c := OnEvent(w.c, w.log[from])), views, from + 1, m);
    } else {
      assert w.log[from..m] == [];
    }
  }

  lemma DeliverOne(w: World, views: seq<State>, from: int, m: int)
    requires AreViews(w, views) && Folds(w, views) && w.c.state.eventSeq <= from < m <= |w.log|
    requires View(w.c.state) == views[from]
    ensures var v := w.(c := OnEvent(w.c, w.log[from]));
      && Deliver(w.c, w.log[from..m]) == Deliver(v.c, w.log[from + 1..m])
      && v.c == w.c.(state := v.c.state, streamSeqs := v.c.streamSeqs)
      && AreViews(v, views) && Folds(v, views) && v.c.state.eventSeq <= from + 1 && View(v.c.state) == views[from + 1]
      && Seq(v) == Max(Seq(w), from + 1)
  {
    var e := w.log[from];
    assert w.log[from..m][0] == e && w.log[from..m][1..] == w.log[from + 1..m];
    HandledState(w, views, e, w.c.queue, w.c.handler);
    assert w.(c := OnEvent(w.c, e)) == Handled(w, e, w.c.queue, w.c.handler);
  }

  /** The client that an arriving answer leaves behind. */
  lemma Arrived(w: World)
    requires Plumbed(w) && Allowed(w, AnswerArrives)
    ensures Do(w, AnswerArrives).c == Settle(Deliver(w.c, w.log[w.c.catchup.after..Until(w)]))
  {
    SortedAnswer(w.log, w.base, w.c.catchup.after, Until(w), w.answer.value);
  }

  /** What is delivered: nothing, or the segment from where the state is or the answer sets in. */
  lemma DeliveredFits(w: World, views: seq<State>)
    requires Plumbed(w) && AreViews(w, views) && Shows(w, views) && Allowed(w, AnswerArrives)
    ensures var d := Deliver(w.c, w.log[w.c.catchup.after..Until(w)]);
      && d == w.c.(state := d.state, streamSeqs := d.streamSeqs)
      && Folds(w.(c := d), views) && Onward(w.(c := d), views)
  {
    var after, m, s := w.c.catchup.after, Until(w), w.c.state.eventSeq;
    IsOfTheRun(w, views);
    DeliverSkips(w.log, w.base, w.c, after, m);
    if s < m {
      var from := Max(after, s);
      assert views[s] == views[from];
      DeliverFits(w, views, from, m);
    }
  }

  lemma AnswerFits(w: World, views: seq<State>)
    requires Course(w, views) && Allowed(w, AnswerArrives)
    ensures Course(Do(w, AnswerArrives), views)
  {
    Arrived(w);
    DeliveredFits(w, views);
  }

  lemma CommittedState(w: World, m: int, chat: seq<Message>)
    ensures var v := Make(w, Commit(m, chat));
      && v == w.(c := w.c.(state := v.c.state)) && v.c.state.eventSeq == m
      && View(v.c.state) == ViewAt(w.log, w.base, m)
  {
  }

  lemma CommitShows(w: World, views: seq<State>, m: int, state: State)
    requires AreViews(w, views) && CommitFits(w, views, m) && View(state) == views[m] && state.eventSeq == m
    ensures Shows(w.(c := w.c.(state := state)), views)
  {
    IsOfTheRun(w.(c := w.c.(state := state)), views);
  }

  lemma ViewsIndex(w: World, k: int)
    requires 0 <= k <= |w.log|
    ensures Views(w)[k] == ViewAt(w.log, w.base, k)
  {
  }

  lemma CommitFitsOn(w: World, m: int, chat: seq<Message>)
    requires OnCourse(w) && CommitFits(w, Views(w), m)
    ensures OnCourse(Make(w, Commit(m, chat)))
  {
    var v := Make(w, Commit(m, chat));
    CommittedState(w, m, chat);
    ViewsIndex(w, m);
    CommitCourse(w, Views(w), m, v.c.state);
    SameViews(w, v);
  }

  lemma CommitCourse(w: World, views: seq<State>, m: int, state: State)
    requires Course(w, views) && CommitFits(w, views, m) && View(state) == views[m] && state.eventSeq == m
    ensures Course(w.(c := w.c.(state := state)), views)
  {
    CommitShows(w, views, m, state);
    StaysPlumbed(w, w.(c := w.c.(state := state)));
    SameViews(w, w.(c := w.c.(state := state)));
  }

  lemma SameViews(w: World, v: World)
    requires v.log == w.log && v.base == w.base
    ensures Views(v) == Views(w)
    ensures forall views | AreViews(w, views) :: AreViews(v, views)
  {
  }

  /** A turn that leaves the state, the cursors and the log alone, and drops or renews the
      request. */
  lemma TurnFits(w: World, views: seq<State>, v: World)
    requires Plumbed(w) && Shows(w, views) && v.log == w.log && v.base == w.base
    requires v.c.state == w.c.state && v.c.streamSeqs == w.c.streamSeqs
    requires || (v.c.catchup == w.c.catchup && v.answer == w.answer) || (v.c.catchup.Idle? && v.answer.None?)
             || (v.c.catchup == Asked(w.c.state.eventSeq) && v.answer.None?)
    ensures Shows(v, views)
  {
  }

  lemma AskedFits(w: World, views: seq<State>, events: seq<Event>)
    requires Course(w, views) && Allowed(w, ServerAnswers(events))
    ensures Course(Do(w, ServerAnswers(events)), views)
  {
    assert w.log[w.c.catchup.after..|w.log|] == w.log[w.c.catchup.after..];
    assert |events| == |multiset(events)| == |w.log[w.c.catchup.after..]|;
    assert Until(Do(w, ServerAnswers(events))) == |w.log|;
  }

  lemma OtherTurns(w: World, a: Action)
    requires LogOk(w.log, w.base) && Allowed(w, a) && 0 <= w.c.state.eventSeq
    requires QueueLogged(w.log, w.c.queue) && HandlerLogged(w.log, w.c.handler)
      && (w.answer.Some? ==> w.c.catchup.Asked?)
    requires !a.ServerAppends? && !a.HandlerStarts? && !a.HandlerResumes? && !a.AnswerArrives? && !a.ServerAnswers?
    ensures var v := Do(w, a);
      && v.log == w.log && v.base == w.base && v.c.state == w.c.state && v.c.streamSeqs == w.c.streamSeqs
      && ((v.c.catchup == w.c.catchup && v.answer == w.answer) || (v.c.catchup.Idle? && v.answer.None?)
          || (v.c.catchup == Asked(w.c.state.eventSeq) && v.answer.None?))
      && QueueLogged(w.log, v.c.queue) && HandlerLogged(w.log, v.c.handler)
  {
  }

  lemma TurnsFit(w: World, views: seq<State>, a: Action)
    requires Course(w, views) && Allowed(w, a) && !a.ServerAppends?
    ensures Course(Do(w, a), views) && Do(w, a).log == w.log && Do(w, a).base == w.base
  {
    match a
    case HandlerStarts => StartFits(w, views);
    case HandlerResumes => ResumeFits(w, views);
    case AnswerArrives => AnswerFits(w, views);
    case ServerAnswers(events) => AskedFits(w, views, events);
    case _ =>
      OtherTurns(w, a);
      StaysPlumbed(w, Do(w, a));
      TurnFits(w, views, Do(w, a));
      SameViews(w, Do(w, a));
  }

  lemma StreamFits(w: World, a: Action)
    requires OnCourse(w) && Allowed(w, a)
    ensures OnCourse(Do(w, a))
  {
    if a.ServerAppends? {
      AppendFits(w, a.event);
    } else {
      TurnsFit(w, Views(w), a);
      SameViews(w, Do(w, a));
    }
  }

  lemma {:induction false} MovesFit(w: World, moves: seq<Move>)
    requires OnCourse(w) && AllMayMake(w, moves)
    ensures OnCourse(MakeAll(w, moves))
    decreases |moves|
  {
    if moves != [] {
      match moves[0] {
        case Stream(a) => StreamFits(w, a);
        case Commit(m, chat) => CommitFitsOn(w, m, chat);
      }
      MovesFit(Make(w, moves[0]), moves[1..]);
    }
  }

  lemma StartsOnCourse(w: World)
    requires Starts(w)
    ensures OnCourse(w)
  {
    ViewsAreViews(w);
  }

  lemma {:induction false} MovesKeepBase(w: World, moves: seq<Move>)
    ensures MakeAll(w, moves).base == w.base && w.log <= MakeAll(w, moves).log
    decreases |moves|
  {
    if moves != [] {
      MovesKeepBase(Make(w, moves[0]), moves[1..]);
    }
  }

  /** In every run with snapshots that fit, the graph and the run shown are those of the log's
      first `eventSeq` events. */
  lemma EveryRunShowsAPrefix(w: World, moves: seq<Move>)
    requires Starts(w) && AllMayMake(w, moves)
    ensures var v := MakeAll(w, moves);
      && 0 <= v.c.state.eventSeq <= |v.log|
      && View(v.c.state) == View(FoldTo(v.log, v.base, v.c.state.eventSeq))
      && v.base == w.base && w.log <= v.log
  {
    StartsOnCourse(w);
    MovesFit(w, moves);
    MovesKeepBase(w, moves);
  }

  // ----- the condition is exact -----

  /** An open client with nothing under way. */
  predicate Idling(w: World) {
    w.c.queue == [] && w.c.handler.Ready? && w.c.catchup.Idle? && w.answer.None? && !w.c.closed
  }

  ghost predicate FoldsNow(w: World) { Folds(w, Views(w)) }

  /** Whatever the server logs and the network does from here on, a prefix is shown. */
  ghost predicate StaysFolded(w: World) {
    forall actions | AllAllowed(w, actions) :: FoldsNow(RunAll(w, actions))
  }

  lemma {:induction false} ActionsFit(w: World, actions: seq<Action>)
    requires OnCourse(w) && AllAllowed(w, actions)
    ensures FoldsNow(RunAll(w, actions))
    decreases |actions|
  {
    if actions != [] {
      StreamFits(w, actions[0]);
      ActionsFit(Do(w, actions[0]), actions[1..]);
    }
  }

  /** An event that changes nothing but the sequence. */
  function Noted(w: World): Event
    requires w.base.run.Some?
  {
    Event(w.base.workspaceId, w.base.run.value.id, |w.log| + 1, "run.noted", map[], "")
  }

  /** It is logged, sent and handled. */
  function NotedNext(w: World): seq<Action>
    requires w.base.run.Some?
  {
    [ServerAppends(Noted(w)), MessageDelivered(w.c.generation, |w.log|), HandlerStarts]
  }

  lemma ThreeTurns(w: World, a: Action, w1: World, b: Action, w2: World, c: Action, w3: World)
    requires Allowed(w, a) && Do(w, a) == w1 && Allowed(w1, b) && Do(w1, b) == w2 && Allowed(w2, c) && Do(w2, c) == w3
    ensures RunAll(w, [a, b, c]) == w3 && AllAllowed(w, [a, b, c])
  {
    assert [a, b, c][1..] == [b, c] && [b, c][1..] == [c] && [c][1..] == [];
    assert RunAll(w2, [c]) == RunAll(w3, []) && AllAllowed(w2, [c]);
    assert RunAll(w1, [b, c]) == RunAll(w2, [c]) && AllAllowed(w1, [b, c]);
  }

  lemma NotedHandled(w: World)
    requires LogOk(w.log, w.base) && Idling(w) && Seq(w) == |w.log|
    requires IsPrimary(w.c, w.base.run.value.id) && w.c.state.workspaceId == w.base.workspaceId
      && w.c.state.eventSeq <= |w.log|
    ensures StartHead(w.c.(queue := [Noted(w)])).state == w.c.state.(eventSeq := |w.log| + 1)
  {
    var e, c := Noted(w), w.c.(queue := [Noted(w)]);
    assert c.queue[1..] == [] && c.(queue := []) == w.c;
    assert Apply(w.c.state, e) == w.c.state.(eventSeq := |w.log| + 1);
    assert StartHead(c) == Handle(w.c, e) == OnEvent(w.c, e);
  }

  lemma NotedRuns(w: World)
    requires LogOk(w.log, w.base) && FoldsNow(w) && Idling(w) && Seq(w) == |w.log|
    ensures AllAllowed(w, NotedNext(w))
    ensures var v := RunAll(w, NotedNext(w));
      v.log == w.log + [Noted(w)] && v.base == w.base && v.c.state == w.c.state.(eventSeq := |w.log| + 1)
  {
    ViewsAreViews(w);
    IsOfTheRun(w, Views(w));
    NotedHandled(w);
    NotedSteps(w);
  }

  lemma NotedSteps(w: World)
    requires LogOk(w.log, w.base) && Idling(w) && w.c.state.workspaceId == w.base.workspaceId
    ensures AllAllowed(w, NotedNext(w))
    ensures var v := RunAll(w, NotedNext(w));
      && v.log == w.log + [Noted(w)] && v.base == w.base
      && v.c.state == StartHead(w.c.(queue := [Noted(w)])).state
  {
    var e, actions := Noted(w), NotedNext(w);
    var w1 := w.(log := w.log + [e]);
    var w2 := w1.(c := w.c.(queue := [e]));
    assert w1.log[|w.log|] == e && w.c.queue + [e] == [e];
    ThreeTurns(w, actions[0], w1, actions[1], w2, actions[2], Do(w2, actions[2]));
  }

  lemma NotedChangesNothing(w: World)
    requires LogOk(w.log, w.base)
    ensures ViewAt(w.log + [Noted(w)], w.base, |w.log| + 1) == ViewAt(w.log, w.base, |w.log|)
  {
    var log := w.log + [Noted(w)];
    FoldToGrows(w.log, w.base, |w.log|, Noted(w));
    FoldBounds(w.log, w.base, |w.log|);
    assert FoldTo(log, w.base, |w.log| + 1) == Apply(FoldTo(log, w.base, |w.log|), log[|w.log|]);
  }

  /** Showing a prefix still after one noted event needs the whole log's view now. */
  lemma NotedNeedsTheEnd(w: World)
    requires LogOk(w.log, w.base) && FoldsNow(w) && Idling(w) && Seq(w) == |w.log|
    requires FoldsNow(RunAll(w, NotedNext(w)))
    ensures View(w.c.state) == ViewAt(w.log, w.base, |w.log|)
  {
    NotedRuns(w);
    NotedChangesNothing(w);
    assert View(w.c.state) == View(RunAll(w, NotedNext(w)).c.state);
  }

  /** A client at the end of the log goes on showing prefixes, whatever comes, exactly if what
      it shows is the prefix at its sequence and at the stream's. */
  lemma StaysFoldedExactly(w: World)
    requires LogOk(w.log, w.base) && Idling(w) && Seq(w) == |w.log|
    ensures StaysFolded(w) <==> FoldsNow(w) && View(w.c.state) == ViewAt(w.log, w.base, |w.log|)
  {
    if FoldsNow(w) && View(w.c.state) == ViewAt(w.log, w.base, |w.log|) {
      ViewsAreViews(w);
      assert OnCourse(w);
      forall actions | AllAllowed(w, actions) ensures FoldsNow(RunAll(w, actions)) {
        ActionsFit(w, actions);
      }
    }
    if StaysFolded(w) {
      assert AllAllowed(w, []) && RunAll(w, []) == w;
      NotedRuns(w);
      NotedNeedsTheEnd(w);
    }
  }

  /** A snapshot of the first `m` events, committed by a client with nothing under way whose
      stream then is at the end of the log, is safe exactly if only messages changed after them. */
  lemma CommitIsSafeExactly(w: World, m: int, chat: seq<Message>)
    requires LogOk(w.log, w.base) && FoldsNow(w) && Idling(w) && w.base.eventSeq <= m <= |w.log|
    requires Max(m, Cursor(w.c, w.base.run.value.id)) == |w.log|
    ensures StaysFolded(Make(w, Commit(m, chat))) <==> ViewAt(w.log, w.base, |w.log|) == ViewAt(w.log, w.base, m)
  {
    var v := Make(w, Commit(m, chat));
    assert View(v.c.state) == ViewAt(w.log, w.base, m) && v.c.state.eventSeq == m;
    assert Views(v) == Views(w);
    ViewsAreViews(v);
    IsOfTheRun(v, Views(v));
    StaysFoldedExactly(v);
  }

  // ----- which notices are held -----

  /** If the event at `k` makes a notice, it is held. */
  ghost predicate HeldAt(w: World, k: int) {
    0 < k <= |w.log| && MakesNotice(w.log[k - 1]) ==> HasMessage(w.c.state.messages, NoticeId(w.log[k - 1]))
  }

  ghost predicate Holds(w: World, n: int) { forall k | w.base.eventSeq < k <= n :: HeldAt(w, k) }

  /** Every notice of the events up to the stream's sequence is held, and of those before the
      answer in flight sets in. */
  ghost predicate HoldsAll(w: World)
    requires w.base.run.Some?
  {
    Holds(w, Seq(w)) && (w.c.catchup.Asked? ==> Holds(w, w.c.catchup.after))
  }

  /** No event between the stream's sequence and `m` makes a notice that is not held yet. */
  ghost predicate NoNewNotice(w: World, m: int)
    requires w.base.run.Some?
  {
    forall k | Seq(w) < k <= m && w.base.eventSeq < k :: HeldAt(w, k)
  }

  /** A snapshot keeps the notices that are held, and no others. */
  lemma CommitMessages(w: World, m: int, chat: seq<Message>, id: MessageId)
    requires ServerChat(chat) && IsNotice(id)
    ensures HasMessage(Make(w, Commit(m, chat)).c.state.messages, id) <==> HasMessage(w.c.state.messages, id)
  {
    SnapshotKeepsNotices(w.c.state, Snapshot(w.log, w.base, m, chat));
  }

  /** A snapshot loses a notice exactly if an event it skips makes one that is not held yet. */
  lemma CommitLosesNoNoticeExactly(w: World, m: int, chat: seq<Message>)
    requires LogOk(w.log, w.base) && FoldsNow(w) && HoldsAll(w) && ServerChat(chat) && w.base.eventSeq <= m <= |w.log|
    ensures HoldsAll(Make(w, Commit(m, chat))) <==> NoNewNotice(w, m)
  {
    var v := Make(w, Commit(m, chat));
    ViewsAreViews(w);
    IsOfTheRun(w, Views(w));
    assert View(v.c.state) == ViewAt(w.log, w.base, m) && v.c.state.eventSeq == m && Views(v) == Views(w);
    IsOfTheRun(v, Views(w));
    forall k ensures HeldAt(v, k) <==> HeldAt(w, k) {
      if 0 < k <= |w.log| && MakesNotice(w.log[k - 1]) {
        CommitMessages(w, m, chat, NoticeId(w.log[k - 1]));
      }
    }
  }

  /** Applying an event keeps the notices that are held and adds its own. */
  lemma NextHolds(w: World, e: Event, n: int)
    requires LogOk(w.log, w.base) && Logged(w.log, e) && w.c.state.workspaceId == w.base.workspaceId && Holds(w, n)
    ensures Holds(w.(c := OnEvent(w.c, e)), if e.seqNo == n + 1 then n + 1 else n)
  {
    var v := w.(c := OnEvent(w.c, e));
    forall k | HeldAt(w, k) && 0 < k <= |w.log| && MakesNotice(w.log[k - 1]) ensures HeldAt(v, k) {
      HeldStays(w.c.state, e, NoticeId(w.log[k - 1]));
    }
    if MakesNotice(e) {
      NoticeIsHeld(w.c.state, e);
    }
  }

  lemma {:induction false} DeliverHolds(w: World, views: seq<State>, from: int, m: int, n: int)
    requires AreViews(w, views) && Folds(w, views) && w.c.state.eventSeq <= from <= m <= |w.log|
    requires View(w.c.state) == views[from] && Holds(w, from) && Holds(w, n)
    ensures Holds(w.(c := Deliver(w.c, w.log[from..m])), m) && Holds(w.(c := Deliver(w.c, w.log[from..m])), n)
    decreases m - from
  {
    if from < m {
      IsOfTheRun(w, views);
      DeliverOne(w, views, from, m);
      NextHolds(w, w.log[from], from);
      NextHolds(w, w.log[from], n);
      DeliverHolds(w.(c := OnEvent(w.c, w.log[from])), views, from + 1, m, n);
    } else {
      assert w.log[from..m] == [];
    }
  }

  lemma DeliveredHolds(w: World, views: seq<State>)
    requires Plumbed(w) && AreViews(w, views) && Shows(w, views) && HoldsAll(w) && Allowed(w, AnswerArrives)
    ensures var v := w.(c := Deliver(w.c, w.log[w.c.catchup.after..Until(w)])); Holds(v, Seq(v))
  {
    var after, m, s := w.c.catchup.after, Until(w), w.c.state.eventSeq;
    IsOfTheRun(w, views);
    DeliverSkips(w.log, w.base, w.c, after, m);
    if s < m {
      var from := Max(after, s);
      assert views[s] == views[from];
      DeliverFits(w, views, from, m);
      DeliverHolds(w, views, from, m, Seq(w));
    }
  }

  lemma AnswerHolds(w: World, views: seq<State>)
    requires Course(w, views) && HoldsAll(w) && Allowed(w, AnswerArrives)
    ensures HoldsAll(Do(w, AnswerArrives))
  {
    Arrived(w);
    DeliveredHolds(w, views);
    var d := Deliver(w.c, w.log[w.c.catchup.after..Until(w)]);
    SettledHolds(w, d, Do(w, AnswerArrives));
  }

  lemma SettledHolds(w: World, d: Client, v: World)
    requires w.base.run.Some? && Holds(w.(c := d), Seq(w.(c := d))) && v.c == Settle(d) && v.log == w.log
      && v.base == w.base
    ensures HoldsAll(v)
  {
    assert forall k | HeldAt(w.(c := d), k) :: HeldAt(v, k);
  }

  lemma HandledHolds(w: World, views: seq<State>, e: Event, queue: seq<Event>, handler: Handler)
    requires Course(w, views) && HoldsAll(w) && Logged(w.log, e) && e.seqNo == Seq(w) + 1
    ensures HoldsAll(Handled(w, e, queue, handler))
  {
    IsOfTheRun(w, views);
    NextHolds(w, e, Seq(w));
    if w.c.catchup.Asked? {
      NextHolds(w, e, w.c.catchup.after);
    }
    HandledState(w, views, e, queue, handler);
    MoreQueued(w.(c := OnEvent(w.c, e)), queue, handler);
  }

  lemma MoreQueued(w: World, queue: seq<Event>, handler: Handler)
    ensures forall n :: Holds(w.(c := w.c.(queue := queue, handler := handler)), n) <==> Holds(w, n)
  {
    var v := w.(c := w.c.(queue := queue, handler := handler));
    assert forall k :: HeldAt(v, k) <==> HeldAt(w, k);
  }

  lemma SameHolds(w: World, v: World)
    requires w.base.run.Some? && HoldsAll(w) && v.base == w.base && v.log == w.log
    requires v.c.state == w.c.state && v.c.streamSeqs == w.c.streamSeqs && w.c.state.eventSeq <= Seq(w)
    requires v.c.catchup == w.c.catchup || v.c.catchup.Idle? || v.c.catchup == Asked(w.c.state.eventSeq)
    ensures HoldsAll(v)
  {
    assert forall k | HeldAt(w, k) :: HeldAt(v, k);
  }

  lemma AppendHolds(w: World, e: Event)
    requires Plumbed(w) && HoldsAll(w) && Seq(w) <= |w.log| && Allowed(w, ServerAppends(e))
    ensures HoldsAll(Do(w, ServerAppends(e)))
  {
    var v := Do(w, ServerAppends(e));
    assert forall k | k <= |w.log| && HeldAt(w, k) :: HeldAt(v, k);
  }

  lemma StartHolds(w: World, views: seq<State>)
    requires Course(w, views) && HoldsAll(w)
    ensures HoldsAll(Do(w, HandlerStarts))
  {
    var c := w.c;
    IsOfTheRun(w, views);
    if c.queue != [] && c.handler.Ready? {
      assert c.queue[0] in c.queue;
      if c.queue[0].seqNo == Seq(w) + 1 {
        HandledHolds(w, views, c.queue[0], c.queue[1..], Ready);
        assert Do(w, HandlerStarts) == Handled(w, c.queue[0], c.queue[1..], Ready);
      } else {
        SameHolds(w, Do(w, HandlerStarts));
      }
    }
  }

  lemma ResumeHolds(w: World, views: seq<State>)
    requires Course(w, views) && HoldsAll(w)
    ensures HoldsAll(Do(w, HandlerResumes))
  {
    var c := w.c;
    IsOfTheRun(w, views);
    if c.handler.Resumable? {
      if c.handler.event.seqNo == Seq(w) + 1 {
        HandledHolds(w, views, c.handler.event, c.queue, Ready);
        assert Do(w, HandlerResumes) == Handled(w, c.handler.event, c.queue, Ready);
      } else {
        SameHolds(w, Do(w, HandlerResumes));
      }
    }
  }

  lemma StreamHolds(w: World, views: seq<State>, a: Action)
    requires Course(w, views) && HoldsAll(w) && Allowed(w, a)
    ensures HoldsAll(Do(w, a))
  {
    IsOfTheRun(w, views);
    match a
    case ServerAppends(e) => AppendHolds(w, e);
    case HandlerStarts => StartHolds(w, views);
    case HandlerResumes => ResumeHolds(w, views);
    case AnswerArrives => AnswerHolds(w, views);
    case ServerAnswers(_) => SameHolds(w, Do(w, a));
    case _ =>
      OtherTurns(w, a);
      SameHolds(w, Do(w, a));
  }

  /** No committed snapshot skips an event whose notice is new. */
  ghost predicate NoneSkipped(w: World, moves: seq<Move>)
    decreases |moves|
  {
    moves != [] ==>
      && (moves[0].Commit? ==> w.base.run.Some? && NoNewNotice(w, moves[0].at))
      && NoneSkipped(Make(w, moves[0]), moves[1..])
  }

  /** Then every notice of the events up to the stream's sequence is held. */
  lemma {:induction false} EveryRunHoldsItsNotices(w: World, moves: seq<Move>)
    requires OnCourse(w) && HoldsAll(w) && AllMayMake(w, moves) && NoneSkipped(w, moves)
    ensures OnCourse(MakeAll(w, moves)) && HoldsAll(MakeAll(w, moves))
    decreases |moves|
  {
    if moves != [] {
      match moves[0] {
        case Stream(a) =>
          StreamFits(w, a);
          StreamHolds(w, Views(w), a);
        case Commit(m, chat) =>
          CommitFitsOn(w, m, chat);
          CommitLosesNoNoticeExactly(w, m, chat);
      }
      EveryRunHoldsItsNotices(Make(w, moves[0]), moves[1..]);
    }
  }

  lemma StartsHolding(w: World)
    requires Starts(w)
    ensures OnCourse(w) && HoldsAll(w)
  {
    StartsOnCourse(w);
  }

  // ----- a snapshot behind the stream, and one ahead of it -----

  const QUEUED := State(0, "w", [], [], [], Some(Run("r", OtherStatus("queued"), None, [])))
  const STARTED := Event("w", "r", 1, "run.started", map[], "t1")
  const NOTED := Event("w", "r", 2, "run.noted", map[], "t2")
  const RECOVERY := Event("w", "r", 1, "run.recovery_started", map[], "t1")
  const FRESH := Client(QUEUED, map[], 0, false, Idle, [], Ready, NotConnecting, false, Live)

  /** The run starts, a snapshot taken before that commits, and the next event is delivered
      at once: the start is skipped. */
  lemma StaleSnapshotSkips()
    ensures var log := [STARTED, NOTED];
      var stale := Committed(Handle(FRESH, STARTED), Snapshot(log, QUEUED, 0, []));
      && LogOk(log, QUEUED)
      && Handle(stale, NOTED).state.eventSeq == 2
      && Handle(stale, NOTED).state.run.value.status == OtherStatus("queued")
      && FoldTo(log, QUEUED, 2).run.value.status == Running
  {
    var log := [STARTED, NOTED];
    var started := QUEUED.(eventSeq := 1, run := Some(Run("r", Running, None, [])));
    assert FoldTo(log, QUEUED, 0) == QUEUED && Apply(QUEUED, STARTED) == started;
    assert FoldTo(log, QUEUED, 1) == Apply(FoldTo(log, QUEUED, 0), log[0]) == started;
    assert FoldTo(log, QUEUED, 2) == Apply(started, NOTED) == started.(eventSeq := 2);
    var c := Handle(FRESH, STARTED);
    assert c == FRESH.(state := started, streamSeqs := map["r" := 1]);
    var stale := Committed(c, QUEUED);
    assert stale.state == QUEUED;
    assert Handle(stale, NOTED).state == Apply(QUEUED, NOTED) == QUEUED.(eventSeq := 2);
  }

  /** A snapshot that knows of the recovery commits before the event arrives: the notice of
      it is not in the chat, and the event is then taken for a duplicate. */
  lemma SnapshotLosesANotice()
    ensures var log := [RECOVERY];
      var ahead := Committed(FRESH, Snapshot(log, QUEUED, 1, []));
      && LogOk(log, QUEUED) && MakesNotice(RECOVERY) && ahead.state.messages == []
      && Handle(ahead, RECOVERY) == ahead
      && HasMessage(FoldTo(log, QUEUED, 1).messages, NoticeId(RECOVERY))
  {
    var log := [RECOVERY];
    assert FoldTo(log, QUEUED, 0) == QUEUED;
    assert FoldTo(log, QUEUED, 1) == Apply(FoldTo(log, QUEUED, 0), log[0]) == Apply(QUEUED, RECOVERY);
    NoticeIsHeld(QUEUED, RECOVERY);
  }
}
