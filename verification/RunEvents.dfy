/** The reducer that folds run events into the workbench state (web/src/store-events.ts). */
module RunEvents {
  import opened Json
  import opened Ordering

  datatype Event = Event(
    workspaceId: string, runId: string, seqNo: int, ev: string, data: map<string, Value>, serverTime: string)

  /** Message ids are built from a tag and its parts; ids the server assigns are `Other`. */
  datatype MessageId =
    | RetryNotice(ev: string, run: string, seqNo: int)
    | CancelNotice(ev: string, run: string, seqNo: int)
    | RecoveryNotice(ev: string, run: string, seqNo: int)
    | AgentStatus(session: string)
    | Other(text: string)

  /** What a message says; wording is left to the view, agent text is verbatim. */
  datatype Text =
    | RetryFailed(error: Option<string>)
    | RetryWaiting(attempt: Option<int>)
    | RetryStarted(attempt: Option<int>)
    | CancelUnsupported(provider: Option<string>, message: Option<string>)
    | CancelFailed(provider: Option<string>, error: Option<string>)
    | RecoveryStarted
    | RecoverySucceeded
    | RecoveryCancelled(provider: Option<string>)
    | RecoveryAbandoned(provider: Option<string>, message: Option<string>)
    | Verbatim(text: string)

  datatype Message = Message(
    id: MessageId, role: string, kind: string, text: Text, time: string,
    conversationId: Option<string>, turnId: Option<string>)

  datatype ErrorInfo = ErrorInfo(summary: string, raw: string)
  datatype RunStatus = Running | Succeeded | Failed | Interrupted | OtherStatus(name: string)
  datatype Step = Step(nodeId: string, state: string, cached: bool, error: Option<ErrorInfo>)
  datatype Run = Run(id: string, status: RunStatus, error: Option<ErrorInfo>, steps: seq<Step>)
  datatype NodeView = NodeView(id: string, nodeType: string, title: string, status: string, cached: bool)
  datatype EdgeView = EdgeView(id: string, source: string, target: string, kind: string)

  datatype State = State(
    eventSeq: int, workspaceId: string, messages: seq<Message>,
    nodes: seq<NodeView>, edges: seq<EdgeView>, run: Option<Run>)

  // ----- reading event data -----

  function StringData(e: Event, key: string): Option<string> {
    if key in e.data && e.data[key].Str? then Some(e.data[key].s) else None
  }

  function BooleanData(e: Event, key: string): bool {
    key in e.data && e.data[key].Bool? && e.data[key].b
  }

  function NumberData(e: Event, key: string): Option<int> {
    if key in e.data && e.data[key].Num? then Some(e.data[key].n) else None
  }

  const STEP_STATES := {"queued", "running", "succeeded", "failed", "skipped"}

  function StepState(e: Event): Option<string> {
    var state := StringData(e, "state");
    if state.Some? && state.value in STEP_STATES then state else None
  }

  function GetOr(o: Option<string>, fallback: string): string { if o.Some? then o.value else fallback }
  function Take(s: string, n: nat): string { if |s| <= n then s else s[..n] }

  /** The text before the first line break. */
  function FirstLine(s: string): string {
    if s == [] || s[0] == '\n' || s[..Min(2, |s|)] == "\r\n" then [] else [s[0]] + FirstLine(s[1..])
  }

  function EventError(e: Event): Option<ErrorInfo> {
    var error := StringData(e, "error");
    if error.None? || error.value == [] then None
    else Some(ErrorInfo(Take(FirstLine(error.value), 160), Take(error.value, 1200)))
  }

  // ----- classifying events -----

  predicate IsAgentStatus(ev: string) { ev in {"agent.status", "agent.status.end", "agent.log"} }
  predicate IsRetry(ev: string) { ev in {"run.retry", "run.retry_pending", "run.retry_failed"} }
  predicate IsCancel(ev: string) { ev in {"run.remote_cancel_unsupported", "run.remote_cancel_failed"} }

  predicate IsRecovery(ev: string) {
    ev in {"run.recovery_started", "run.recovery_succeeded", "run.recovery_cancelled", "run.recovery_abandoned"}
  }

  function RunStatusOf(ev: string): Option<RunStatus> {
    if ev == "run.started" then Some(Running)
    else if ev == "run.succeeded" then Some(Succeeded)
    else if ev == "run.failed" then Some(Failed)
    else if ev == "run.interrupted" then Some(Interrupted)
    else None
  }

  // ----- messages -----

  predicate HasMessage(messages: seq<Message>, id: MessageId) {
    exists m | m in messages :: m.id == id
  }

  /** A notice is added once; seeing it again changes nothing, not even the sequence. */
  function AddNotice(s: State, e: Event, m: Message): State {
    if HasMessage(s.messages, m.id) then s
    else s.(eventSeq := Max(s.eventSeq, e.seqNo), messages := s.messages + [m])
  }

  function SystemMessage(id: MessageId, failed: bool, text: Text, e: Event): Message {
    Message(id, "system", if failed then "run_failed" else "run_requested", text, e.serverTime, None, None)
  }

  function RetryMessage(e: Event): Message {
    var attempt := NumberData(e, "attempt");
    SystemMessage(
      RetryNotice(e.ev, GetOr(StringData(e, "child_run_id"), e.runId), e.seqNo),
      e.ev == "run.retry_failed",
      if e.ev == "run.retry_failed" then RetryFailed(StringData(e, "error"))
      else if e.ev == "run.retry_pending" || BooleanData(e, "requires_confirmation") then RetryWaiting(attempt)
      else RetryStarted(attempt),
      e)
  }

  function CancelMessage(e: Event): Message {
    var provider := StringData(e, "provider");
    SystemMessage(
      CancelNotice(e.ev, e.runId, e.seqNo), true,
      if e.ev == "run.remote_cancel_unsupported" then CancelUnsupported(provider, StringData(e, "message"))
      else CancelFailed(provider, StringData(e, "error")),
      e)
  }

  function RecoveryMessage(e: Event): Message {
    var provider := StringData(e, "provider");
    SystemMessage(
      RecoveryNotice(e.ev, e.runId, e.seqNo),
      e.ev == "run.recovery_abandoned",
      if e.ev == "run.recovery_started" then RecoveryStarted
      else if e.ev == "run.recovery_succeeded" then RecoverySucceeded
      else if e.ev == "run.recovery_cancelled" then RecoveryCancelled(provider)
      else RecoveryAbandoned(provider, StringData(e, "message")),
      e)
  }

  function NonEmpty(fields: map<string, Value>, key: string): Option<string> {
    if key in fields && fields[key].Str? && fields[key].s != [] then Some(fields[key].s) else None
  }

  function AgentText(e: Event): string {
    var status := GetOr(StringData(e, "status"), e.ev);
    if "detail" in e.data && e.data["detail"].Obj? then
      var detail := e.data["detail"].fields;
      if NonEmpty(detail, "message").Some? then NonEmpty(detail, "message").value
      else if NonEmpty(detail, "proposal_title").Some? then
        "Proposal ready: " + NonEmpty(detail, "proposal_title").value
      else status
    else status
  }

  const CHAT_KINDS :=
    {"text", "chat", "proposal_pending", "proposal_applied", "proposal_dismissed", "run_requested", "run_failed"}

  function AgentKind(e: Event): string {
    var kind := StringData(e, "message_kind");
    if kind.Some? && (kind.value in CHAT_KINDS || "agent_log:" <= kind.value) then kind.value
    else if StringData(e, "status") == Some("agent.status.end") then "chat"
    else "agent_log:status"
  }

  function AgentMessage(e: Event): Message {
    Message(AgentStatus(GetOr(StringData(e, "session_id"), e.runId)), "agent", AgentKind(e), Verbatim(AgentText(e)),
            e.serverTime, StringData(e, "conversation_id"), StringData(e, "turn_id"))
  }

  function Replaced(messages: seq<Message>, m: Message): seq<Message> {
    seq(|messages|, i requires 0 <= i < |messages| => if messages[i].id == m.id then m else messages[i])
  }

  /** One message per agent session, updated in place. */
  function ApplyAgentStatus(s: State, e: Event): State {
    var m := AgentMessage(e);
    s.(eventSeq := Max(s.eventSeq, e.seqNo),
       messages := if HasMessage(s.messages, m.id) then Replaced(s.messages, m) else s.messages + [m])
  }

  // ----- the primary run -----

  function MarkNodes(nodes: seq<NodeView>, id: string, state: string, cached: bool): seq<NodeView> {
    seq(|nodes|, i requires 0 <= i < |nodes| =>
      if nodes[i].id == id then nodes[i].(status := state, cached := cached) else nodes[i])
  }

  function MarkSteps(steps: seq<Step>, id: string, state: string, cached: bool, error: Option<ErrorInfo>): seq<Step> {
    seq(|steps|, i requires 0 <= i < |steps| =>
      if steps[i].nodeId == id then steps[i].(state := state, cached := cached, error := error) else steps[i])
  }

  function ApplyRun(s: State, e: Event): State
    requires s.run.Some?
  {
    var run := s.run.value;
    if e.ev == "node.state" then
      var id := GetOr(StringData(e, "node_id"), "");
      var state := StepState(e);
      var cached := BooleanData(e, "cached");
      if id == "" || state.None? then s.(eventSeq := e.seqNo)
      else s.(
        eventSeq := e.seqNo,
        nodes := MarkNodes(s.nodes, id, state.value, cached),
        run := Some(run.(steps := MarkSteps(run.steps, id, state.value, cached, EventError(e)))))
    else
      var status := RunStatusOf(e.ev);
      if status.Some? then
        s.(eventSeq := e.seqNo,
           run := Some(run.(
             status := status.value, error := if status == Some(Failed) then EventError(e) else run.error)))
      else s.(eventSeq := e.seqNo)
  }

  function Apply(s: State, e: Event): State {
    if e.workspaceId != s.workspaceId then s
    else if IsAgentStatus(e.ev) then ApplyAgentStatus(s, e)
    else if IsRetry(e.ev) then AddNotice(s, e, RetryMessage(e))
    else if IsCancel(e.ev) then AddNotice(s, e, CancelMessage(e))
    else if IsRecovery(e.ev) then AddNotice(s, e, RecoveryMessage(e))
    else if s.run.None? || e.runId != s.run.value.id || e.seqNo <= s.eventSeq then s
    else ApplyRun(s, e)
  }

  // ----- what the reducer guarantees -----

  lemma ReplacedKeepsIds(messages: seq<Message>, m: Message)
    ensures forall id :: HasMessage(Replaced(messages, m), id) <==> HasMessage(messages, id)
    ensures Replaced(Replaced(messages, m), m) == Replaced(messages, m)
  {
    var after := Replaced(messages, m);
    forall id ensures HasMessage(after, id) <==> HasMessage(messages, id) {
      if HasMessage(messages, id) {
        var i :| 0 <= i < |messages| && messages[i].id == id;
        assert after[i] in after && after[i].id == id;
      }
      if HasMessage(after, id) {
        var i :| 0 <= i < |after| && after[i].id == id;
        assert messages[i] in messages && messages[i].id == id;
      }
    }
  }

  lemma AppendedIsFound(messages: seq<Message>, m: Message)
    ensures HasMessage(messages + [m], m.id)
    ensures !HasMessage(messages, m.id) ==> Replaced(messages + [m], m) == messages + [m]
  {
    assert m in messages + [m];
    if !HasMessage(messages, m.id) {
      assert forall i | 0 <= i < |messages| :: messages[i] in messages && messages[i].id != m.id;
    }
  }

  lemma AgentTwice(s: State, e: Event)
    ensures ApplyAgentStatus(ApplyAgentStatus(s, e), e) == ApplyAgentStatus(s, e)
  {
    ReplacedKeepsIds(s.messages, AgentMessage(e));
    AppendedIsFound(s.messages, AgentMessage(e));
  }

  lemma NoticeTwice(s: State, e: Event, m: Message)
    ensures AddNotice(AddNotice(s, e, m), e, m) == AddNotice(s, e, m)
  {
    AppendedIsFound(s.messages, m);
  }

  /** Delivering an event twice is delivering it once, whatever the event and the state. */
  lemma ApplyTwice(s: State, e: Event)
    ensures Apply(Apply(s, e), e) == Apply(s, e)
  {
    AgentTwice(s, e);
    NoticeTwice(s, e, RetryMessage(e));
    NoticeTwice(s, e, CancelMessage(e));
    NoticeTwice(s, e, RecoveryMessage(e));
  }

  /** What no event may touch: the graph's shape, the run's identity, the history of
      message ids; and the sequence never goes back or past the event. */
  ghost predicate Framed(s: State, r: State, e: Event) {
    && s.eventSeq <= r.eventSeq <= Max(s.eventSeq, e.seqNo)
    && r.workspaceId == s.workspaceId && r.edges == s.edges
    && SameNodes(s.nodes, r.nodes)
    && SameRun(s.run, r.run)
    && KeepsIds(s.messages, r.messages)
  }

  ghost predicate SameNodes(a: seq<NodeView>, b: seq<NodeView>) {
    |a| == |b| && forall i | 0 <= i < |a| ::
      a[i].id == b[i].id && a[i].nodeType == b[i].nodeType && a[i].title == b[i].title
  }

  ghost predicate SameRun(a: Option<Run>, b: Option<Run>) {
    && (a.Some? <==> b.Some?)
    && (a.Some? && b.Some? ==>
          && a.value.id == b.value.id && |a.value.steps| == |b.value.steps|
          && forall i | 0 <= i < |a.value.steps| :: a.value.steps[i].nodeId == b.value.steps[i].nodeId)
  }

  ghost predicate KeepsIds(a: seq<Message>, b: seq<Message>) {
    |a| <= |b| <= |a| + 1 && forall i | 0 <= i < |a| :: a[i].id == b[i].id
  }

  lemma RunFrame(s: State, e: Event)
    requires s.run.Some? && e.seqNo > s.eventSeq
    ensures Framed(s, ApplyRun(s, e), e)
  {}

  lemma ApplyFrame(s: State, e: Event)
    ensures Framed(s, Apply(s, e), e)
    ensures e.workspaceId != s.workspaceId ==> Apply(s, e) == s
  {
    assert Framed(s, s, e);
    assert Framed(s, ApplyAgentStatus(s, e), e);
    assert forall m :: Framed(s, AddNotice(s, e, m), e);
    if s.run.Some? && e.seqNo > s.eventSeq { RunFrame(s, e); }
  }

  /** An event the state has not reached either moves the sequence onto itself or changes
      nothing at all. */
  lemma ApplyAdvances(s: State, e: Event)
    requires e.seqNo > s.eventSeq
    ensures Apply(s, e).eventSeq == e.seqNo || Apply(s, e) == s
  {}

  /** Run and node events of the primary run at or below the sequence are no-ops. */
  lemma OldRunEventsIgnored(s: State, e: Event)
    requires e.seqNo <= s.eventSeq && !IsAgentStatus(e.ev) && !IsRetry(e.ev) && !IsCancel(e.ev) && !IsRecovery(e.ev)
    ensures Apply(s, e) == s
  {}

  // ----- notices across a snapshot -----

  predicate IsNotice(id: MessageId) { id.RetryNotice? || id.CancelNotice? || id.RecoveryNotice? }

  function MissingNotices(current: seq<Message>, snapshot: seq<Message>): seq<Message> {
    if current == [] then []
    else if IsNotice(current[0].id) && !HasMessage(snapshot, current[0].id)
    then [current[0]] + MissingNotices(current[1..], snapshot)
    else MissingNotices(current[1..], snapshot)
  }

  function PreserveNotices(current: State, snapshot: State): State {
    snapshot.(messages := snapshot.messages + MissingNotices(current.messages, snapshot.messages))
  }

  lemma {:induction false} MissingNoticesMeaning(current: seq<Message>, snapshot: seq<Message>)
    ensures forall m :: m in MissingNotices(current, snapshot) <==>
      m in current && IsNotice(m.id) && !HasMessage(snapshot, m.id)
  {
    if current != [] {
      MissingNoticesMeaning(current[1..], snapshot);
      assert forall m :: m in current <==> m == current[0] || m in current[1..];
    }
  }

  lemma {:induction false} NoneMissing(current: seq<Message>, snapshot: seq<Message>)
    requires forall m | m in current && IsNotice(m.id) :: HasMessage(snapshot, m.id)
    ensures MissingNotices(current, snapshot) == []
  {
    if current != [] {
      NoneMissing(current[1..], snapshot);
    }
  }

  /** A snapshot keeps all its own messages, gains exactly the notices it lacks, and
      preserving once is enough. */
  lemma SnapshotKeepsNotices(current: State, snapshot: State)
    ensures var r := PreserveNotices(current, snapshot);
      && snapshot.messages <= r.messages
      && (forall m | m in current.messages && IsNotice(m.id) :: HasMessage(r.messages, m.id))
      && (forall m | m in r.messages :: m in snapshot.messages || (m in current.messages && IsNotice(m.id)))
      && PreserveNotices(current, r) == r
      && r.(messages := snapshot.messages) == snapshot
  {
    var r := PreserveNotices(current, snapshot);
    MissingNoticesMeaning(current.messages, snapshot.messages);
    forall m | m in current.messages && IsNotice(m.id) ensures HasMessage(r.messages, m.id) {
      if HasMessage(snapshot.messages, m.id) {
        var x :| x in snapshot.messages && x.id == m.id;
        assert x in r.messages;
      } else {
        assert m in r.messages;
      }
    }
    NoneMissing(current.messages, r.messages);
  }
}
