/** What each event does to the state (web/src/store-events.ts), event name by event name. */
module EventEffects {
  import opened Json
  import opened Ordering
  import opened RunEvents
  import opened EventFold
  import opened EventStream

  // ----- what an event says -----

  /** The text under a key, if there is one. */
  predicate Tells(e: Event, key: string, text: Option<string>) {
    if key in e.data && e.data[key].Str? then text == Some(e.data[key].s) else text == None
  }

  predicate TellsOr(e: Event, key: string, fallback: string, text: string) {
    if key in e.data && e.data[key].Str? then text == e.data[key].s else text == fallback
  }

  predicate Counts(e: Event, key: string, n: Option<int>) {
    if key in e.data && e.data[key].Num? then n == Some(e.data[key].n) else n == None
  }

  predicate Affirms(e: Event, key: string) { key in e.data && e.data[key] == Bool(true) }

  /** `line` is what comes before the first line break of `text`. */
  predicate IsFirstLine(line: string, text: string) {
    && line <= text && '\n' !in line
    && (|line| < |text| ==>
          || (text[|line|] == '\n' && (line == "" || line[|line| - 1] != '\r'))
          || (text[|line|] == '\r' && |line| + 1 < |text| && text[|line| + 1] == '\n'))
  }

  /** The error text, cut to 1200 characters, and its first line, cut to 160. */
  ghost predicate ShowsError(e: Event, error: Option<ErrorInfo>) {
    if "error" in e.data && e.data["error"].Str? && e.data["error"].s != "" then
      var text := e.data["error"].s;
      && error.Some? && error.value.raw == text[..Min(|text|, 1200)]
      && exists line :: IsFirstLine(line, text) && error.value.summary == line[..Min(|line|, 160)]
    else error == None
  }

  lemma {:induction false} FirstLineIsFirst(text: string)
    ensures IsFirstLine(FirstLine(text), text)
  {
    if text != "" && text[0] != '\n' && text[..Min(2, |text|)] != "\r\n" {
      FirstLineIsFirst(text[1..]);
      var rest := FirstLine(text[1..]);
      assert FirstLine(text) == [text[0]] + rest && text == [text[0]] + text[1..];
      assert |rest| < |text[1..]| ==> text[1..][|rest|] == text[|rest| + 1];
      if rest == "" && |text| > 1 && text[1] == '\n' {
        assert text[..2] == [text[0], text[1]];
      }
    }
  }

  lemma ErrorIsShown(e: Event)
    ensures ShowsError(e, EventError(e))
  {
    if "error" in e.data && e.data["error"].Str? && e.data["error"].s != "" {
      FirstLineIsFirst(e.data["error"].s);
    }
  }

  // ----- events of the shown run -----

  predicate OfShownRun(s: State, e: Event) {
    && e.workspaceId == s.workspaceId && s.run.Some? && e.runId == s.run.value.id && e.seqNo > s.eventSeq
  }

  /** Nothing but the run and the sequence differs. */
  predicate OnlyRunMoves(s: State, r: State, e: Event) {
    && r.eventSeq == e.seqNo && r.workspaceId == s.workspaceId && r.messages == s.messages && r.nodes == s.nodes
    && r.edges == s.edges && r.run.Some? && s.run.Some?
    && r.run.value.id == s.run.value.id && r.run.value.steps == s.run.value.steps
  }

  lemma RunEventsReachTheRun(s: State, e: Event)
    requires OfShownRun(s, e)
    requires e.ev in {"run.started", "run.succeeded", "run.failed", "run.interrupted"}
    ensures Apply(s, e) == ApplyRun(s, e)
  {
  }

  /** The four run events set the run's status; only a failure replaces its error. */
  lemma RunEventEffect(s: State, e: Event)
    requires OfShownRun(s, e)
    requires e.ev in {"run.started", "run.succeeded", "run.failed", "run.interrupted"}
    ensures var r := Apply(s, e);
      && OnlyRunMoves(s, r, e)
      && (e.ev == "run.started" ==> r.run.value.status == Running)
      && (e.ev == "run.succeeded" ==> r.run.value.status == Succeeded)
      && (e.ev == "run.failed" ==> r.run.value.status == Failed)
      && (e.ev == "run.interrupted" ==> r.run.value.status == Interrupted)
      && (e.ev == "run.failed" ==> ShowsError(e, r.run.value.error))
      && (e.ev != "run.failed" ==> r.run.value.error == s.run.value.error)
  {
    RunEventsReachTheRun(s, e);
    ErrorIsShown(e);
  }

  const STATES := {"queued", "running", "succeeded", "failed", "skipped"}

  /** Exactly the nodes of this id take the state; the others are as before. */
  predicate NodesTake(a: seq<NodeView>, b: seq<NodeView>, id: string, state: string, cached: bool) {
    |a| == |b| && forall i | 0 <= i < |a| ::
      if a[i].id == id then
        && b[i].status == state && b[i].cached == cached
        && b[i].id == id && b[i].nodeType == a[i].nodeType && b[i].title == a[i].title
      else b[i] == a[i]
  }

  ghost predicate StepsTake(a: seq<Step>, b: seq<Step>, id: string, state: string, cached: bool, e: Event) {
    |a| == |b| && forall i | 0 <= i < |a| ::
      if a[i].nodeId == id then
        b[i].nodeId == id && b[i].state == state && b[i].cached == cached && ShowsError(e, b[i].error)
      else b[i] == a[i]
  }

  /** A node event with a node id and a known state. */
  predicate NamesNode(e: Event, id: string, state: string) {
    id != "" && state in STATES && Tells(e, "node_id", Some(id)) && Tells(e, "state", Some(state))
  }

  /** A node event sets the state of its node and of the node's steps. */
  lemma NodeEventEffect(s: State, e: Event, id: string, state: string)
    requires OfShownRun(s, e) && e.ev == "node.state" && NamesNode(e, id, state)
    ensures var r := Apply(s, e);
      && r.eventSeq == e.seqNo && r.workspaceId == s.workspaceId && r.messages == s.messages && r.edges == s.edges
      && NodesTake(s.nodes, r.nodes, id, state, Affirms(e, "cached"))
      && r.run.Some? && r.run.value.id == s.run.value.id
      && r.run.value.status == s.run.value.status && r.run.value.error == s.run.value.error
      && StepsTake(s.run.value.steps, r.run.value.steps, id, state, Affirms(e, "cached"), e)
  {
    ErrorIsShown(e);
  }

  const NOTICES := {
    "agent.status", "agent.status.end", "agent.log", "run.retry", "run.retry_pending", "run.retry_failed",
    "run.remote_cancel_unsupported", "run.remote_cancel_failed",
    "run.recovery_started", "run.recovery_succeeded", "run.recovery_cancelled", "run.recovery_abandoned"}

  /** Any other event of the run changes the sequence and nothing else. */
  lemma OtherEventEffect(s: State, e: Event)
    requires OfShownRun(s, e) && e.ev !in NOTICES
    requires e.ev !in {"run.started", "run.succeeded", "run.failed", "run.interrupted"}
    requires e.ev == "node.state" ==> forall id, state :: !NamesNode(e, id, state)
    ensures Apply(s, e) == s.(eventSeq := e.seqNo)
  {
    if e.ev == "node.state" {
      var id, state := GetOr(StringData(e, "node_id"), ""), GetOr(StepState(e), "");
      assert !NamesNode(e, id, state);
    }
  }

  /** Neither has an event that is not of the shown run any effect, nor an old one. */
  lemma ForeignEventEffect(s: State, e: Event)
    requires !OfShownRun(s, e) && (e.ev !in NOTICES || e.workspaceId != s.workspaceId)
    ensures Apply(s, e) == s
  {
  }

  // ----- notices and agent messages -----

  /** Nothing but the messages and the sequence differs. */
  predicate OnlyMessagesMove(s: State, r: State, e: Event) {
    && r.eventSeq == Max(s.eventSeq, e.seqNo) && r.workspaceId == s.workspaceId
    && r.nodes == s.nodes && r.edges == s.edges && r.run == s.run
  }

  /** A notice is appended, unless a message of its id is there. */
  ghost predicate Notifies(s: State, r: State, e: Event, id: MessageId, kind: string, text: Text) {
    if exists m | m in s.messages :: m.id == id then r == s
    else
      && OnlyMessagesMove(s, r, e)
      && r.messages == s.messages + [Message(id, "system", kind, text, e.serverTime, None, None)]
  }

  lemma NoticeEffect(s: State, e: Event, id: MessageId, failed: bool, text: Text)
    ensures Notifies(s, AddNotice(s, e, SystemMessage(id, failed, text, e)), e, id,
      if failed then "run_failed" else "run_requested", text)
  {
  }

  lemma RetryEffect(s: State, e: Event, child: string, error: Option<string>, attempt: Option<int>)
    requires e.workspaceId == s.workspaceId && e.ev in {"run.retry", "run.retry_pending", "run.retry_failed"}
    requires TellsOr(e, "child_run_id", e.runId, child) && Tells(e, "error", error) && Counts(e, "attempt", attempt)
    ensures var r, id := Apply(s, e), RetryNotice(e.ev, child, e.seqNo);
      && (e.ev == "run.retry_failed" ==> Notifies(s, r, e, id, "run_failed", RetryFailed(error)))
      && (e.ev == "run.retry_pending" ==> Notifies(s, r, e, id, "run_requested", RetryWaiting(attempt)))
      && (e.ev == "run.retry" ==> Notifies(s, r, e, id, "run_requested",
            if Affirms(e, "requires_confirmation") then RetryWaiting(attempt) else RetryStarted(attempt)))
  {
    var m := RetryMessage(e);
    NoticeEffect(s, e, m.id, e.ev == "run.retry_failed", m.text);
  }

  lemma CancelEffect(s: State, e: Event, provider: Option<string>, message: Option<string>, error: Option<string>)
    requires e.workspaceId == s.workspaceId
    requires e.ev in {"run.remote_cancel_unsupported", "run.remote_cancel_failed"}
    requires Tells(e, "provider", provider) && Tells(e, "message", message) && Tells(e, "error", error)
    ensures Notifies(s, Apply(s, e), e, CancelNotice(e.ev, e.runId, e.seqNo), "run_failed",
      if e.ev == "run.remote_cancel_unsupported" then CancelUnsupported(provider, message)
      else CancelFailed(provider, error))
  {
    var m := CancelMessage(e);
    NoticeEffect(s, e, m.id, true, m.text);
  }

  lemma RecoveriesNotify(s: State, e: Event)
    requires e.workspaceId == s.workspaceId
    requires e.ev in {
      "run.recovery_started", "run.recovery_succeeded", "run.recovery_cancelled", "run.recovery_abandoned"}
    ensures var m := RecoveryMessage(e);
      Apply(s, e) == AddNotice(s, e, SystemMessage(m.id, e.ev == "run.recovery_abandoned", m.text, e))
  {
  }

  lemma RecoveryEffect(s: State, e: Event, provider: Option<string>, message: Option<string>)
    requires e.workspaceId == s.workspaceId && Tells(e, "provider", provider) && Tells(e, "message", message)
    requires e.ev in {
      "run.recovery_started", "run.recovery_succeeded", "run.recovery_cancelled", "run.recovery_abandoned"}
    ensures var r, id := Apply(s, e), RecoveryNotice(e.ev, e.runId, e.seqNo);
      && (e.ev == "run.recovery_started" ==> Notifies(s, r, e, id, "run_requested", RecoveryStarted))
      && (e.ev == "run.recovery_succeeded" ==> Notifies(s, r, e, id, "run_requested", RecoverySucceeded))
      && (e.ev == "run.recovery_cancelled" ==> Notifies(s, r, e, id, "run_requested", RecoveryCancelled(provider)))
      && (e.ev == "run.recovery_abandoned" ==>
            Notifies(s, r, e, id, "run_failed", RecoveryAbandoned(provider, message)))
  {
    var m := RecoveryMessage(e);
    RecoveriesNotify(s, e);
    NoticeEffect(s, e, m.id, e.ev == "run.recovery_abandoned", m.text);
  }

  /** The events whose notice a client makes on its own, and the id it gets. */
  lemma NoticesAre(e: Event, child: string)
    requires TellsOr(e, "child_run_id", e.runId, child)
    ensures MakesNotice(e) <==> e.ev in NOTICES && e.ev !in {"agent.status", "agent.status.end", "agent.log"}
    ensures e.ev in {"run.retry", "run.retry_pending", "run.retry_failed"} ==>
      NoticeId(e) == RetryNotice(e.ev, child, e.seqNo)
    ensures e.ev in {"run.remote_cancel_unsupported", "run.remote_cancel_failed"} ==>
      NoticeId(e) == CancelNotice(e.ev, e.runId, e.seqNo)
    ensures e.ev in {
      "run.recovery_started", "run.recovery_succeeded", "run.recovery_cancelled", "run.recovery_abandoned"} ==>
      NoticeId(e) == RecoveryNotice(e.ev, e.runId, e.seqNo)
    ensures MakesNotice(e) ==> IsNotice(NoticeId(e))
  {
  }

  predicate TellsNonEmpty(detail: map<string, Value>, key: string) {
    key in detail && detail[key].Str? && detail[key].s != ""
  }

  /** The detail's message, else its proposal title, else the status, else the event's name. */
  predicate AgentSays(e: Event, text: string) {
    if "detail" in e.data && e.data["detail"].Obj? && TellsNonEmpty(e.data["detail"].fields, "message")
    then text == e.data["detail"].fields["message"].s
    else if "detail" in e.data && e.data["detail"].Obj? && TellsNonEmpty(e.data["detail"].fields, "proposal_title")
    then text == "Proposal ready: " + e.data["detail"].fields["proposal_title"].s
    else TellsOr(e, "status", e.ev, text)
  }

  predicate IsChatKind(kind: string) {
    || kind in {"text", "chat", "proposal_pending", "proposal_applied", "proposal_dismissed"}
    || kind in {"run_requested", "run_failed"} || "agent_log:" <= kind
  }

  predicate AgentKindIs(e: Event, kind: string) {
    if "message_kind" in e.data && e.data["message_kind"].Str? && IsChatKind(e.data["message_kind"].s)
    then kind == e.data["message_kind"].s
    else kind == if Tells(e, "status", Some("agent.status.end")) then "chat" else "agent_log:status"
  }

  predicate AgentMessageIs(e: Event, m: Message) {
    && m.id.AgentStatus? && TellsOr(e, "session_id", e.runId, m.id.session)
    && m.role == "agent" && m.time == e.serverTime && m.text.Verbatim? && AgentSays(e, m.text.text)
    && AgentKindIs(e, m.kind) && Tells(e, "conversation_id", m.conversationId) && Tells(e, "turn_id", m.turnId)
  }

  /** The session's message takes the place of those with its id, or comes last. */
  ghost predicate Speaks(before: seq<Message>, after: seq<Message>, m: Message) {
    if exists x | x in before :: x.id == m.id then
      |after| == |before| && forall i | 0 <= i < |before| :: after[i] == if before[i].id == m.id then m else before[i]
    else after == before + [m]
  }

  lemma AgentEffect(s: State, e: Event)
    requires e.workspaceId == s.workspaceId && e.ev in {"agent.status", "agent.status.end", "agent.log"}
    ensures var r := Apply(s, e);
      OnlyMessagesMove(s, r, e) && exists m :: AgentMessageIs(e, m) && Speaks(s.messages, r.messages, m)
  {
    assert AgentMessageIs(e, AgentMessage(e)) by {
      assert AgentKindIs(e, AgentKind(e));
      assert AgentSays(e, AgentText(e));
    }
    assert Speaks(s.messages, Apply(s, e).messages, AgentMessage(e));
  }

  // ----- the status that every run of the client shows -----

  predicate IsRunEvent(ev: string) { ev in {"run.started", "run.succeeded", "run.failed", "run.interrupted"} }

  predicate StatusIs(ev: string, status: RunStatus) {
    || (ev == "run.started" && status == Running) || (ev == "run.succeeded" && status == Succeeded)
    || (ev == "run.failed" && status == Failed) || (ev == "run.interrupted" && status == Interrupted)
  }

  lemma RunEventsSetTheStatus(s: State, e: Event)
    requires OfShownRun(s, e) && IsRunEvent(e.ev)
    ensures Apply(s, e).run.Some? && StatusIs(e.ev, Apply(s, e).run.value.status)
  {
    RunEventEffect(s, e);
  }

  /** No run event after the first `j` and up to the first `k`. */
  predicate NoneBetween(log: seq<Event>, j: nat, k: nat)
    requires k <= |log|
  {
    forall i | j <= i < k :: !IsRunEvent(log[i].ev)
  }

  lemma OthersKeepTheStatus(s: State, e: Event)
    requires s.run.Some? && !IsRunEvent(e.ev)
    ensures Apply(s, e).run.Some? && Apply(s, e).run.value.status == s.run.value.status
  {
  }

  lemma NextStatus(s: State, e: Event, last: string)
    requires OfShownRun(s, e)
    ensures Apply(s, e).run.Some?
    ensures IsRunEvent(e.ev) ==> StatusIs(e.ev, Apply(s, e).run.value.status)
    ensures !IsRunEvent(e.ev) && StatusIs(last, s.run.value.status) ==> StatusIs(last, Apply(s, e).run.value.status)
  {
    if IsRunEvent(e.ev) {
      RunEventsSetTheStatus(s, e);
    } else {
      OthersKeepTheStatus(s, e);
    }
  }

  lemma FoldStep(log: seq<Event>, base: State, k: nat)
    requires LogOk(log, base) && base.eventSeq < k <= |log|
    ensures FoldTo(log, base, k) == Apply(FoldTo(log, base, k - 1), log[k - 1])
    ensures OfShownRun(FoldTo(log, base, k - 1), log[k - 1])
  {
    FoldBounds(log, base, k - 1);
  }

  /** The last of the four run events decides the status that a log folds to. */
  lemma {:induction false} FoldShowsTheStatus(log: seq<Event>, base: State, k: nat, j: nat)
    requires LogOk(log, base) && base.eventSeq < j <= k <= |log|
    requires IsRunEvent(log[j - 1].ev) && NoneBetween(log, j, k)
    ensures FoldTo(log, base, k).run.Some? && StatusIs(log[j - 1].ev, FoldTo(log, base, k).run.value.status)
    decreases k
  {
    FoldStep(log, base, k);
    NextStatus(FoldTo(log, base, k - 1), log[k - 1], log[j - 1].ev);
    if j < k {
      FoldShowsTheStatus(log, base, k - 1, j);
    }
  }

  /** Whatever the network does, the client shows the status that the last run event up to its
      sequence gives. */
  lemma EveryRunShowsTheStatus(w: World, actions: seq<Action>, j: nat)
    requires Starts(w) && AllAllowed(w, actions)
    requires var v := RunAll(w, actions);
      && w.base.eventSeq < j <= v.c.state.eventSeq <= |v.log| && IsRunEvent(v.log[j - 1].ev)
      && NoneBetween(v.log, j, v.c.state.eventSeq)
    ensures var v := RunAll(w, actions);
      v.c.state.run.Some? && StatusIs(v.log[j - 1].ev, v.c.state.run.value.status)
  {
    EveryRunFoldsAPrefix(w, actions);
    StartsInvariant(w);
    RunKeeps(w, actions);
    var v := RunAll(w, actions);
    FoldShowsTheStatus(v.log, v.base, v.c.state.eventSeq, j);
  }
}
