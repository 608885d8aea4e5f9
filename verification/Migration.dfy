/** The version-migration store (web/src/store-version-migration.ts): one apply whose
    outcome may stay unknown, retried under the same operation id. */
module Migration {
  import opened Ordering

  datatype Context = Context(workspaceId: string, versionId: string, connectorId: string)

  datatype Report = Report(
    reportHash: string, sourceGraphHash: string, catalogRevision: string,
    workspaceConnectorId: string, migrationVersion: int, status: string, applyEnabled: bool)

  datatype ApplyStatus = InProgress | OutcomeUnknown

  datatype PendingApply = PendingApply(context: Context, operationId: string, report: Report, status: ApplyStatus)
  datatype CompletedApply = CompletedApply(context: Context, targetVersionId: string, workspaceState: string)

  datatype Phase = Idle | Checking | Ready | Applying | Unknown | PendingElsewhere | Conflict | Failed | Success

  /** The texts shown, by their cause. */
  datatype Note = LastOutcomeUnknown | ThisOutcomeUnknown | Message(text: string)

  datatype ApplyError = Api(httpStatus: int, code: string, message: string) | NoAnswer

  datatype State = State(
    context: Option<Context>, phase: Phase, report: Option<Report>, error: Option<Note>,
    successVersionId: Option<string>, pending: Option<PendingApply>, completed: Option<CompletedApply>)

  const INITIAL := State(None, Idle, None, None, None, None, None)

  // ----- contexts are compared by a key -----

  function ContextKey(c: Context): string { c.workspaceId + "\0" + c.versionId + "\0" + c.connectorId }

  predicate Shows(st: State, key: string) { st.context.Some? && ContextKey(st.context.value) == key }

  lemma SplitAtNul(a: string, b: string, r: string, s: string)
    requires '\0' !in a && '\0' !in b && a + "\0" + r == b + "\0" + s
    ensures a == b && r == s
  {
    var t := a + "\0" + r;
    assert t[|a|] == '\0' && t[|b|] == '\0';
    assert forall i | 0 <= i < |a| :: t[i] == a[i] && a[i] in a;
    assert forall i | 0 <= i < |b| :: t[i] == b[i] && b[i] in b;
    assert a == t[..|a|] && b == t[..|b|];
    assert r == t[|a| + 1..] && s == t[|b| + 1..];
  }

  /** As long as no id holds a NUL, equal keys are equal contexts. */
  lemma KeysTellContextsApart(a: Context, b: Context)
    requires '\0' !in a.workspaceId + a.versionId && '\0' !in b.workspaceId + b.versionId
    ensures ContextKey(a) == ContextKey(b) <==> a == b
  {
    if ContextKey(a) == ContextKey(b) {
      var ra, rb := a.versionId + "\0" + a.connectorId, b.versionId + "\0" + b.connectorId;
      assert ContextKey(a) == a.workspaceId + "\0" + ra;
      assert ContextKey(b) == b.workspaceId + "\0" + rb;
      SplitAtNul(a.workspaceId, b.workspaceId, ra, rb);
      SplitAtNul(a.versionId, b.versionId, a.connectorId, b.connectorId);
    }
  }

  // ----- what each action does to the state -----

  function PhaseOf(status: ApplyStatus): Phase { if status.InProgress? then Applying else Unknown }

  function WithContext(st: State, context: Option<Context>): State {
    if context.None? then st.(context := None, phase := Idle, report := None, error := None)
    else
      var c := context.value;
      if st.pending.Some? then
        var p := st.pending.value;
        if ContextKey(c) == ContextKey(p.context)
        then st.(context := context, phase := PhaseOf(p.status), report := Some(p.report),
                 error := if p.status.OutcomeUnknown? then Some(LastOutcomeUnknown) else None)
        else st.(context := context, phase := PendingElsewhere, report := None, error := None)
      else if st.completed.Some? && ContextKey(c) == ContextKey(st.completed.value.context)
      then st.(context := context, phase := Success, report := None, error := None,
               successVersionId := Some(st.completed.value.targetVersionId))
      else
        var succeeded := st.successVersionId == Some(c.versionId);
        st.(context := context, phase := if succeeded then Success else Idle, report := None, error := None,
            successVersionId := if succeeded then st.successVersionId else None)
  }

  predicate CanInspect(st: State) { st.context.Some? && st.pending.None? }

  function InspectBegun(st: State): State {
    if CanInspect(st) then st.(phase := Checking, report := None, error := None, successVersionId := None) else st
  }

  function Inspected(st: State, key: string, report: Report): State {
    if Shows(st, key) then st.(phase := Ready, report := Some(report), error := None) else st
  }

  function InspectFailed(st: State, key: string, text: string): State {
    if Shows(st, key) then st.(phase := Failed, error := Some(Message(text))) else st
  }

  predicate Applicable(report: Report) { report.status == "migratable" && report.applyEnabled }

  /** The apply that is sent now, if any; `newId` is used only when none is pending here. */
  function NextApply(st: State, newId: string): Option<PendingApply> {
    if st.context.None? || st.phase.PendingElsewhere? then None
    else
      var matching := st.pending.Some? && ContextKey(st.context.value) == ContextKey(st.pending.value.context);
      var report := if matching then Some(st.pending.value.report) else st.report;
      if report.None? || !Applicable(report.value) then None
      else Some(PendingApply(st.context.value, if matching then st.pending.value.operationId else newId,
                             report.value, InProgress))
  }

  function ApplyBegun(st: State, newId: string): State {
    var next := NextApply(st, newId);
    if next.None? then st else st.(phase := Applying, pending := next, error := None)
  }

  function ApplySucceeded(st: State, sent: PendingApply, targetVersionId: string, workspaceState: string): State {
    var visible := Shows(st, ContextKey(sent.context));
    st.(pending := None, phase := if visible then Success else Idle, report := None, error := None,
        successVersionId := Some(targetVersionId),
        completed := if visible then None else Some(CompletedApply(sent.context, targetVersionId, workspaceState)))
  }

  /** The server has decided: it refused, or it said that applying is switched off. */
  predicate IsDefinite(e: ApplyError) {
    e.Api? && (e.httpStatus < 500 || (e.httpStatus == 503 && e.code == "MIGRATION_APPLY_DISABLED"))
  }

  function ApplyFailed(st: State, sent: PendingApply, e: ApplyError): State {
    var visible := Shows(st, ContextKey(sent.context));
    if IsDefinite(e) then
      st.(pending := None, report := None, error := if visible then Some(Message(e.message)) else None,
          phase := if !visible then Idle else if e.httpStatus == 409 then Conflict else Failed)
    else
      st.(pending := Some(sent.(status := OutcomeUnknown)), phase := if visible then Unknown else PendingElsewhere,
          error := if visible then Some(ThisOutcomeUnknown) else st.error)
  }

  predicate CanHydrate(st: State) {
    st.completed.Some? && Shows(st, ContextKey(st.completed.value.context))
  }

  function Hydrated(st: State): State { if CanHydrate(st) then st.(completed := None) else st }

  // ----- the store, updated in place -----

  class VersionMigrationStore {
    var context: Option<Context>
    var phase: Phase
    var report: Option<Report>
    var error: Option<Note>
    var successVersionId: Option<string>
    var pendingApply: Option<PendingApply>
    var completedApply: Option<CompletedApply>
    /** The check that has not been aborted, by number. */
    var checkController: Option<nat>
    var controllers: nat

    function Abs(): State
      reads this
    {
      State(context, phase, report, error, successVersionId, pendingApply, completedApply)
    }

    constructor ()
      ensures Abs() == INITIAL && checkController == None
    {
      context, phase, report, error := None, Idle, None, None;
      successVersionId, pendingApply, completedApply := None, None, None;
      checkController, controllers := None, 0;
    }

    method SetContext(context: Option<Context>)
      modifies this
      ensures Abs() == WithContext(old(Abs()), context) && checkController == None
    {
      checkController := None;
      this.context := context;
      error := None;
      if context.None? {
        phase, report := Idle, None;
        return;
      }
      if pendingApply.Some? {
        var pending := pendingApply.value;
        if ContextKey(context.value) == ContextKey(pending.context) {
          phase, report := PhaseOf(pending.status), Some(pending.report);
          if pending.status.OutcomeUnknown? {
            error := Some(LastOutcomeUnknown);
          }
        } else {
          phase, report := PendingElsewhere, None;
        }
        return;
      }
      report := None;
      if completedApply.Some? && ContextKey(context.value) == ContextKey(completedApply.value.context) {
        phase, successVersionId := Success, Some(completedApply.value.targetVersionId);
        return;
      }
      if successVersionId == Some(context.value.versionId) {
        phase := Success;
      } else {
        phase, successVersionId := Idle, None;
      }
    }

    /** Starts a check, aborting the one before; its number is not that of the one before. */
    method BeginInspect() returns (check: Option<nat>)
      requires checkController.Some? ==> checkController.value < controllers
      modifies this
      ensures Abs() == InspectBegun(old(Abs()))
      ensures check.Some? <==> CanInspect(old(Abs()))
      ensures check.Some? ==> checkController == check && check != old(checkController) && check.value < controllers
      ensures check.None? ==> checkController == old(checkController)
    {
      if context.None? || pendingApply.Some? {
        return None;
      }
      check := Some(controllers);
      checkController := check;
      controllers := controllers + 1;
      phase, report, error, successVersionId := Checking, None, None, None;
    }

    method FinishInspect(key: string, report: Report)
      modifies this`phase, this`report, this`error
      ensures Abs() == Inspected(old(Abs()), key, report)
    {
      if context.Some? && ContextKey(context.value) == key {
        phase, this.report, error := Ready, Some(report), None;
      }
    }

    /** A check that was aborted fails in silence. */
    method FailInspect(check: nat, key: string, text: string)
      modifies this`phase, this`error
      ensures Abs() == if old(checkController) != Some(check) then old(Abs()) else InspectFailed(old(Abs()), key, text)
    {
      if checkController != Some(check) {
        return;
      }
      if context.Some? && ContextKey(context.value) == key {
        phase, error := Failed, Some(Message(text));
      }
    }

    method BeginApply(newId: string) returns (sent: Option<PendingApply>)
      modifies this`phase, this`pendingApply, this`error
      ensures sent == NextApply(old(Abs()), newId) && Abs() == ApplyBegun(old(Abs()), newId)
    {
      if context.None? || phase.PendingElsewhere? {
        return None;
      }
      var chosen, operationId := report, newId;
      if pendingApply.Some? && ContextKey(context.value) == ContextKey(pendingApply.value.context) {
        chosen, operationId := Some(pendingApply.value.report), pendingApply.value.operationId;
      }
      if chosen.None? || chosen.value.status != "migratable" || !chosen.value.applyEnabled {
        return None;
      }
      sent := Some(PendingApply(context.value, operationId, chosen.value, InProgress));
      phase, pendingApply, error := Applying, sent, None;
    }

    method FinishApply(sent: PendingApply, targetVersionId: string, workspaceState: string) returns (delivered: bool)
      modifies this
      ensures Abs() == ApplySucceeded(old(Abs()), sent, targetVersionId, workspaceState)
      ensures delivered <==> Shows(old(Abs()), ContextKey(sent.context))
      ensures checkController == old(checkController)
    {
      delivered := context.Some? && ContextKey(context.value) == ContextKey(sent.context);
      pendingApply, report, error := None, None, None;
      phase := if delivered then Success else Idle;
      successVersionId := Some(targetVersionId);
      completedApply := if delivered then None else Some(CompletedApply(sent.context, targetVersionId, workspaceState));
    }

    method FailApply(sent: PendingApply, e: ApplyError)
      modifies this`phase, this`pendingApply, this`report, this`error
      ensures Abs() == ApplyFailed(old(Abs()), sent, e)
    {
      var visible := context.Some? && ContextKey(context.value) == ContextKey(sent.context);
      if e.Api? && e.httpStatus == 409 {
        pendingApply, report := None, None;
        phase := if visible then Conflict else Idle;
        error := if visible then Some(Message(e.message)) else None;
        return;
      }
      if e.Api? && (e.httpStatus < 500 || (e.httpStatus == 503 && e.code == "MIGRATION_APPLY_DISABLED")) {
        pendingApply, report := None, None;
        phase := if visible then Failed else Idle;
        error := if visible then Some(Message(e.message)) else None;
        return;
      }
      pendingApply := Some(sent.(status := OutcomeUnknown));
      phase := if visible then Unknown else PendingElsewhere;
      if visible {
        error := Some(ThisOutcomeUnknown);
      }
    }

    method HydrateCompleted() returns (delivered: Option<CompletedApply>)
      modifies this`completedApply
      ensures Abs() == Hydrated(old(Abs()))
      ensures delivered == if CanHydrate(old(Abs())) then old(completedApply) else None
    {
      if completedApply.None? || context.None?
        || ContextKey(context.value) != ContextKey(completedApply.value.context) {
        return None;
      }
      delivered := completedApply;
      completedApply := None;
    }
  }

  // ----- every run -----

  /** What goes over the wire: requests, and what became of them. */
  datatype Event =
    | Sent(apply: PendingApply)
    | Done
    | Raised(error: ApplyError)

  /** The apply may have taken effect: there was no answer, or the server failed on its side
      without saying that applying is switched off. */
  predicate Undetermined(e: ApplyError) {
    e.NoAnswer? || (e.httpStatus >= 500 && !(e.httpStatus == 503 && e.code == "MIGRATION_APPLY_DISABLED"))
  }

  predicate IsAnswer(e: Event) { e.Done? || (e.Raised? && !Undetermined(e.error)) }

  /** `check` is the key of the check not aborted, `inflight` the apply not answered. */
  datatype World = World(st: State, check: Option<string>, inflight: Option<PendingApply>, log: seq<Event>)

  datatype Action =
    | Switch(target: Option<Context>)
    | Inspect
    | CheckAnswers(report: Report)
    | CheckFails(text: string)
    | LateAnswers(key: string, report: Report)
    | Apply(newId: string)
    | Succeeds(targetVersionId: string, workspaceState: string)
    | Fails(e: ApplyError)
    | Hydrate

  /** An aborted check that completes after all does no harm unless its context is shown while
      an apply of another one is pending. */
  predicate LateCheckFits(st: State, key: string) {
    !(Shows(st, key) && st.pending.Some? && key != ContextKey(st.pending.value.context))
  }

  /** Apply is not invoked while one is outstanding; aborted checks may complete if that does
      no harm. */
  predicate Allowed(w: World, a: Action) {
    match a
    case LateAnswers(key, _) => LateCheckFits(w.st, key)
    case CheckAnswers(_) => w.check.Some?
    case CheckFails(_) => w.check.Some?
    case Apply(_) => w.inflight.None?
    case Succeeds(_, _) => w.inflight.Some?
    case Fails(_) => w.inflight.Some?
    case _ => true
  }

  function Do(w: World, a: Action): World {
    match a
    case Switch(target) => w.(st := WithContext(w.st, target), check := None)
    case Inspect =>
      if CanInspect(w.st) then w.(st := InspectBegun(w.st), check := Some(ContextKey(w.st.context.value))) else w
    case CheckAnswers(report) =>
      if w.check.None? then w else w.(st := Inspected(w.st, w.check.value, report), check := None)
    case CheckFails(text) =>
      if w.check.None? then w else w.(st := InspectFailed(w.st, w.check.value, text), check := None)
    case LateAnswers(key, report) => w.(st := Inspected(w.st, key, report))
    case Apply(newId) =>
      var next := NextApply(w.st, newId);
      if next.None? then w else w.(st := ApplyBegun(w.st, newId), inflight := next, log := w.log + [Sent(next.value)])
    case Succeeds(version, workspaceState) =>
      if w.inflight.None? then w
      else w.(st := ApplySucceeded(w.st, w.inflight.value, version, workspaceState), inflight := None,
        log := w.log + [Done])
    case Fails(e) =>
      if w.inflight.None? then w
      else w.(st := ApplyFailed(w.st, w.inflight.value, e), inflight := None,
              log := w.log + [Raised(e)])
    case Hydrate => w.(st := Hydrated(w.st))
  }

  function Run(w: World, actions: seq<Action>): World
    decreases |actions|
  {
    if actions == [] then w else Run(Do(w, actions[0]), actions[1..])
  }

  predicate AllAllowed(w: World, actions: seq<Action>)
    decreases |actions|
  {
    actions == [] || (Allowed(w, actions[0]) && AllAllowed(Do(w, actions[0]), actions[1..]))
  }

  const START := World(INITIAL, None, None, [])

  /** Same context, same operation, same report. */
  predicate SameOperation(a: PendingApply, b: PendingApply) {
    ContextKey(a.context) == ContextKey(b.context) && a.operationId == b.operationId && a.report == b.report
  }

  /** The last apply sent, unless the server has decided since. */
  function Undecided(log: seq<Event>): Option<PendingApply> {
    if log == [] then None else
      var last := log[|log| - 1];
      if last.Sent? then Some(last.apply)
      else if IsAnswer(last) then None
      else Undecided(log[..|log| - 1])
  }

  ghost predicate Unanswered(log: seq<Event>, i: nat, j: nat)
    requires j <= |log|
  {
    forall k | i <= k < j :: !IsAnswer(log[k])
  }

  /** Two requests with no definite answer between them are the same operation. */
  ghost predicate OneOperation(log: seq<Event>) {
    forall i, j | 0 <= i < j < |log| && log[i].Sent? && log[j].Sent? && Unanswered(log, i, j) ::
      SameOperation(log[i].apply, log[j].apply)
  }

  ghost predicate Inv(w: World) {
    && OneOperation(w.log)
    && (w.st.pending.Some? <==> Undecided(w.log).Some?)
    && (w.st.pending.Some? ==> SameOperation(w.st.pending.value, Undecided(w.log).value))
    && (w.inflight.Some? ==> w.st.pending == w.inflight)
    && (w.st.pending.Some? && w.st.context.Some? && !Shows(w.st, ContextKey(w.st.pending.value.context)) ==>
          w.st.phase.PendingElsewhere?)
    && (w.st.pending.Some? ==> Applicable(w.st.pending.value.report))
    && (w.check.Some? ==> Shows(w.st, w.check.value))
    && (w.check.Some? && w.st.pending.Some? ==> w.check.value == ContextKey(w.st.pending.value.context))
  }

  lemma {:induction false} UndecidedIsTheLast(log: seq<Event>, i: nat)
    requires i < |log| && log[i].Sent? && Unanswered(log, i, |log|) && OneOperation(log)
    ensures Undecided(log).Some? && SameOperation(log[i].apply, Undecided(log).value)
    decreases |log|
  {
    var n := |log| - 1;
    if i < n {
      var shorter := log[..n];
      assert log[i] == shorter[i];
      if log[n].Sent? {
        assert Unanswered(log, i, n);
      } else {
        assert !IsAnswer(log[n]);
        Shorter(log);
        assert Unanswered(shorter, i, n);
        UndecidedIsTheLast(shorter, i);
      }
    }
  }

  lemma Shorter(log: seq<Event>)
    requires log != [] && OneOperation(log)
    ensures OneOperation(log[..|log| - 1])
  {
    var s := log[..|log| - 1];
    forall i, j | 0 <= i < j < |s| && s[i].Sent? && s[j].Sent? && Unanswered(s, i, j)
      ensures SameOperation(s[i].apply, s[j].apply)
    {
      assert forall k | i <= k < j :: log[k] == s[k];
      assert Unanswered(log, i, j);
    }
  }

  lemma LogGrows(log: seq<Event>, e: Event)
    requires OneOperation(log)
    requires e.Sent? && Undecided(log).Some? ==> SameOperation(Undecided(log).value, e.apply)
    ensures OneOperation(log + [e])
    ensures Undecided(log + [e]) == if e.Sent? then Some(e.apply) else if IsAnswer(e) then None else Undecided(log)
  {
    var t := log + [e];
    assert t[..|log|] == log;
    forall i, j | 0 <= i < j < |t| && t[i].Sent? && t[j].Sent? && Unanswered(t, i, j)
      ensures SameOperation(t[i].apply, t[j].apply)
    {
      assert forall k | i <= k < j :: log[k] == t[k];
      assert Unanswered(log, i, j);
      if j == |log| {
        UndecidedIsTheLast(log, i);
      }
    }
  }

  lemma ApplyKeeps(w: World, newId: string)
    requires Inv(w) && w.inflight.None?
    ensures Inv(Do(w, Apply(newId)))
  {
    var next := NextApply(w.st, newId);
    if next.Some? {
      assert w.st.pending.Some? ==> SameOperation(next.value, w.st.pending.value);
      LogGrows(w.log, Sent(next.value));
    }
  }

  lemma StepKeeps(w: World, a: Action)
    requires Inv(w) && Allowed(w, a)
    ensures Inv(Do(w, a))
  {
    match a
    case Apply(newId) => ApplyKeeps(w, newId);
    case Succeeds(_, _) => LogGrows(w.log, Done);
    case Fails(e) => LogGrows(w.log, Raised(e));
    case _ =>
  }

  lemma {:induction false} RunKeeps(w: World, actions: seq<Action>)
    requires Inv(w) && AllAllowed(w, actions)
    ensures Inv(Run(w, actions))
    decreases |actions|
  {
    if actions != [] {
      StepKeeps(w, actions[0]);
      RunKeeps(Do(w, actions[0]), actions[1..]);
    }
  }

  /** In every run, whatever was lost and wherever the user went: requests with no definite
      answer between them carry the same context key, operation id and report. */
  lemma EveryRunRepeatsTheOperation(actions: seq<Action>, i: nat, j: nat)
    requires AllAllowed(START, actions)
    requires i < j < |Run(START, actions).log| && Unanswered(Run(START, actions).log, i, j)
    requires Run(START, actions).log[i].Sent? && Run(START, actions).log[j].Sent?
    ensures SameOperation(Run(START, actions).log[i].apply, Run(START, actions).log[j].apply)
  {
    RunKeeps(START, actions);
  }

  /** And a lost apply stays on offer: showing its context again and applying sends it. */
  lemma LostApplyCanBeRetried(w: World, newId: string)
    requires Inv(w) && w.inflight.None? && w.st.pending.Some?
    ensures var pending := w.st.pending.value;
      var shown := Do(w, Switch(Some(pending.context)));
      && shown.st.phase == PhaseOf(pending.status) && shown.st.report == Some(pending.report)
      && Do(shown, Apply(newId)).log == w.log + [Sent(pending.(status := InProgress))]
  {
  }

  /** An apply in `a` is lost, then the user moves to `b`, whose check was aborted. */
  function LostElsewhere(a: Context, b: Context, ra: Report): seq<Action> {
    [Switch(Some(b)), Inspect, Switch(Some(a)), Inspect]
      + [CheckAnswers(ra), Apply("one"), Fails(NoAnswer), Switch(Some(b))]
  }

  lemma Step(w: World, a: Action, v: World, rest: seq<Action>)
    requires Allowed(w, a) && Do(w, a) == v
    ensures Run(w, [a] + rest) == Run(v, rest)
    ensures AllAllowed(w, [a] + rest) <==> AllAllowed(v, rest)
  {
    assert ([a] + rest)[1..] == rest;
  }

  lemma Prepared(a: Context, b: Context, rest: seq<Action>)
    ensures var w := World(State(Some(a), Checking, None, None, None, None, None), Some(ContextKey(a)), None, []);
      var actions := [Switch(Some(b)), Inspect, Switch(Some(a)), Inspect] + rest;
      Run(START, actions) == Run(w, rest) && (AllAllowed(START, actions) <==> AllAllowed(w, rest))
  {
    var w0 := START;
    var w1 := World(State(Some(b), Idle, None, None, None, None, None), None, None, []);
    var w2 := World(State(Some(b), Checking, None, None, None, None, None), Some(ContextKey(b)), None, []);
    var w3 := World(State(Some(a), Idle, None, None, None, None, None), None, None, []);
    var w4 := World(State(Some(a), Checking, None, None, None, None, None), Some(ContextKey(a)), None, []);
    var s1, s2, s3 := [Inspect, Switch(Some(a)), Inspect] + rest, [Switch(Some(a)), Inspect] + rest, [Inspect] + rest;
    Step(w0, Switch(Some(b)), w1, s1);
    Step(w1, Inspect, w2, s2);
    Step(w2, Switch(Some(a)), w3, s3);
    Step(w3, Inspect, w4, rest);
    assert [Inspect] + s2 == s1 && [Switch(Some(a))] + s3 == s2;
    assert [Switch(Some(b))] + s1 == [Switch(Some(b)), Inspect, Switch(Some(a)), Inspect] + rest;
  }

  lemma LostThere(a: Context, b: Context, ra: Report)
    requires ContextKey(a) != ContextKey(b) && ra.status == "migratable" && ra.applyEnabled
    ensures var w := World(State(Some(a), Checking, None, None, None, None, None), Some(ContextKey(a)), None, []);
      var actions := [CheckAnswers(ra), Apply("one"), Fails(NoAnswer), Switch(Some(b))];
      var sent := PendingApply(a, "one", ra, InProgress);
      && AllAllowed(w, actions)
      && Run(w, actions) == World(
        State(Some(b), PendingElsewhere, None, None, None, Some(sent.(status := OutcomeUnknown)), None),
        None, None, [Sent(sent), Raised(NoAnswer)])
  {
    var sent := PendingApply(a, "one", ra, InProgress);
    var unknown := Some(sent.(status := OutcomeUnknown));
    var w4 := World(State(Some(a), Checking, None, None, None, None, None), Some(ContextKey(a)), None, []);
    var w5 := World(State(Some(a), Ready, Some(ra), None, None, None, None), None, None, []);
    var w6 := World(State(Some(a), Applying, Some(ra), None, None, Some(sent), None), None, Some(sent), [Sent(sent)]);
    var w7 := World(State(Some(a), Unknown, Some(ra), Some(ThisOutcomeUnknown), None, unknown, None), None, None,
      [Sent(sent), Raised(NoAnswer)]);
    var w8 := World(State(Some(b), PendingElsewhere, None, None, None, unknown, None), None, None,
      [Sent(sent), Raised(NoAnswer)]);
    var s7 := [Switch(Some(b))];
    var s6 := [Fails(NoAnswer)] + s7;
    var s5 := [Apply("one")] + s6;
    Step(w4, CheckAnswers(ra), w5, s5);
    Step(w5, Apply("one"), w6, s6);
    Step(w6, Fails(NoAnswer), w7, s7);
    Step(w7, Switch(Some(b)), w8, []);
    assert [Fails(NoAnswer)] + s7 == s6 && [Apply("one")] + s6 == s5 && [Switch(Some(b))] + [] == s7;
    assert [CheckAnswers(ra)] + s5 == [CheckAnswers(ra), Apply("one"), Fails(NoAnswer), Switch(Some(b))];
  }

  lemma LostElsewhereRuns(a: Context, b: Context, ra: Report)
    requires ContextKey(a) != ContextKey(b) && ra.status == "migratable" && ra.applyEnabled
    ensures var actions := LostElsewhere(a, b, ra);
      && AllAllowed(START, actions)
      && Run(START, actions) == World(
        State(Some(b), PendingElsewhere, None, None, None, Some(PendingApply(a, "one", ra, OutcomeUnknown)), None),
        None, None, [Sent(PendingApply(a, "one", ra, InProgress)), Raised(NoAnswer)])
  {
    Prepared(a, b, [CheckAnswers(ra), Apply("one"), Fails(NoAnswer), Switch(Some(b))]);
    LostThere(a, b, ra);
  }

  lemma {:induction false} UndecidedWasSent(log: seq<Event>)
    requires Undecided(log).Some?
    ensures exists i | 0 <= i < |log| :: log[i] == Sent(Undecided(log).value) && Unanswered(log, i, |log|)
  {
    var n := |log| - 1;
    if !log[n].Sent? {
      UndecidedWasSent(log[..n]);
      var i :| 0 <= i < n && log[..n][i] == Sent(Undecided(log).value) && Unanswered(log[..n], i, n);
      assert forall k | i <= k < n :: log[k] == log[..n][k];
      assert log[i] == Sent(Undecided(log).value) && Unanswered(log, i, |log|);
    } else {
      assert Unanswered(log, n, |log|);
    }
  }

  /** A check that completes after its abort keeps the invariant exactly when it fits ... */
  lemma LateCheckFitsExactly(w: World, key: string, report: Report)
    requires Inv(w)
    ensures Inv(Do(w, LateAnswers(key, report))) <==> LateCheckFits(w.st, key)
  {
  }

  /** ... and where it does not, applying what it found sends a second operation while the
      first is undecided. */
  lemma LateCheckSendsASecond(w: World, key: string, report: Report, newId: string)
    requires Inv(w) && w.inflight.None? && !LateCheckFits(w.st, key) && Applicable(report)
    ensures !OneOperation(Do(Do(w, LateAnswers(key, report)), Apply(newId)).log)
  {
    var late := Do(w, LateAnswers(key, report));
    var sent := NextApply(late.st, newId).value;
    var log := w.log + [Sent(sent)];
    UndecidedWasSent(w.log);
    var i :| 0 <= i < |w.log| && w.log[i] == Sent(Undecided(w.log).value) && Unanswered(w.log, i, |w.log|);
    assert Do(late, Apply(newId)).log == log;
    assert log[i] == w.log[i] && log[|w.log|] == Sent(sent) && forall k | i <= k < |w.log| :: log[k] == w.log[k];
    assert Unanswered(log, i, |w.log|) && !SameOperation(log[i].apply, log[|w.log|].apply);
  }

  /** Were that aborted check to complete after all, `b` would send a second operation
      while the first is undecided. */
  lemma LateCheckBreaksTheLock(a: Context, b: Context, ra: Report, rb: Report)
    requires ContextKey(a) != ContextKey(b)
    requires ra.status == rb.status == "migratable" && ra.applyEnabled && rb.applyEnabled
    ensures var w := Run(START, LostElsewhere(a, b, ra));
      var late := w.(st := Inspected(w.st, ContextKey(b), rb));
      && Undecided(w.log) == Some(PendingApply(a, "one", ra, InProgress))
      && Do(w, Apply("two")) == w
      && Do(late, Apply("two")).log == w.log + [Sent(PendingApply(b, "two", rb, InProgress))]
      && !OneOperation(Do(late, Apply("two")).log)
  {
    LostElsewhereRuns(a, b, ra);
    var w := Run(START, LostElsewhere(a, b, ra));
    assert w.log[..1] == [Sent(PendingApply(a, "one", ra, InProgress))];
    var log := w.log + [Sent(PendingApply(b, "two", rb, InProgress))];
    assert log[0].Sent? && log[2].Sent? && Unanswered(log, 0, 2);
  }

  // ----- what becomes of an apply -----

  /** The apply in flight is kept as unknown, under its id and with its report, exactly if there
      was no answer or the server failed without saying that applying is switched off. */
  lemma FailureKeepsTheApply(w: World, e: ApplyError)
    requires w.inflight.Some?
    ensures var sent, v := w.inflight.value, Do(w, Fails(e));
      var kept := Some(PendingApply(sent.context, sent.operationId, sent.report, OutcomeUnknown));
      && v.inflight.None? && v.log == w.log + [Raised(e)] && v.st.context == w.st.context
      && (e.NoAnswer? ==> v.st.pending == kept)
      && (e.Api? && e.httpStatus >= 500 && (e.httpStatus != 503 || e.code != "MIGRATION_APPLY_DISABLED") ==>
            v.st.pending == kept)
      && (e.Api? && e.httpStatus == 503 && e.code == "MIGRATION_APPLY_DISABLED" ==> v.st.pending == None)
      && (e.Api? && e.httpStatus < 500 ==> v.st.pending == None)
  {
  }

  /** What a failure shows: in its own context the conflict, the refusal or the unknown outcome;
      in another one that an apply is pending elsewhere, or nothing. */
  lemma FailureIsShown(w: World, e: ApplyError)
    requires w.inflight.Some?
    ensures var sent, v := w.inflight.value, Do(w, Fails(e));
      var here := w.st.context.Some? && ContextKey(w.st.context.value) == ContextKey(sent.context);
      && (v.st.pending.Some? && here ==>
            v.st.phase.Unknown? && v.st.error == Some(ThisOutcomeUnknown) && v.st.report == w.st.report)
      && (v.st.pending.Some? && !here ==> v.st.phase.PendingElsewhere? && v.st.error == w.st.error)
      && (v.st.pending.None? && here ==>
            && v.st.error == Some(Message(e.message)) && v.st.report == None
            && v.st.phase == if e.httpStatus == 409 then Conflict else Failed)
      && (v.st.pending.None? && !here ==> v.st.phase.Idle? && v.st.error == None && v.st.report == None)
  {
  }

  /** The second request after an undetermined failure: whatever was shown in between, showing the
      context again and applying repeats the operation; after an answer it is a new one. */
  lemma OnlyAnswersFreeTheOperation(w: World, e: ApplyError, report: Report, newId: string)
    requires Inv(w) && w.inflight.Some? && Applicable(report)
    ensures var sent := w.inflight.value;
      var shown := Do(Do(w, Fails(e)), Switch(Some(sent.context)));
      && (e.NoAnswer? || (e.httpStatus >= 500 && (e.httpStatus != 503 || e.code != "MIGRATION_APPLY_DISABLED")) ==>
            && Do(shown, Inspect) == shown
            && NextApply(shown.st, newId)
                 == Some(PendingApply(sent.context, sent.operationId, sent.report, InProgress)))
      && (e.Api? && (e.httpStatus < 500 || (e.httpStatus == 503 && e.code == "MIGRATION_APPLY_DISABLED")) ==>
            && Do(shown, Apply(newId)) == shown
            && NextApply(Do(Do(shown, Inspect), CheckAnswers(report)).st, newId)
                 == Some(PendingApply(sent.context, newId, report, InProgress)))
  {
  }

  /** A success in its own context is shown there; in another one the result is kept, and handed
      out once when its context is shown. */
  lemma SuccessIsDeliveredOnce(w: World, version: string, workspaceState: string)
    requires w.inflight.Some?
    ensures var sent, v := w.inflight.value, Do(w, Succeeds(version, workspaceState));
      var here := w.st.context.Some? && ContextKey(w.st.context.value) == ContextKey(sent.context);
      && v.st.pending == None && v.inflight == None && v.st.report == None && v.st.error == None
      && v.st.successVersionId == Some(version)
      && (here ==> v.st.phase.Success? && v.st.completed == None)
      && (!here ==>
            && v.st.phase.Idle? && v.st.completed == Some(CompletedApply(sent.context, version, workspaceState))
            && Do(v, Hydrate).st == v.st
            && var shown := Do(v, Switch(Some(sent.context)));
               && shown.st.phase.Success? && CanHydrate(shown.st)
               && Do(shown, Hydrate).st == shown.st.(completed := None) && !CanHydrate(Do(shown, Hydrate).st))
  {
  }

  /** Showing a context: the phase of an apply pending there, the lock of one pending elsewhere,
      else a clean slate or the success that led to the shown version. */
  lemma SwitchShows(w: World, c: Context)
    ensures var v := Do(w, Switch(Some(c)));
      && v.check == None && v.inflight == w.inflight && v.log == w.log
      && v.st.context == Some(c) && v.st.pending == w.st.pending && v.st.completed == w.st.completed
      && (w.st.pending.Some? && ContextKey(w.st.pending.value.context) == ContextKey(c) ==>
            && v.st.report == Some(w.st.pending.value.report)
            && (w.st.pending.value.status.InProgress? ==> v.st.phase.Applying? && v.st.error == None)
            && (w.st.pending.value.status.OutcomeUnknown? ==>
                  v.st.phase.Unknown? && v.st.error == Some(LastOutcomeUnknown)))
      && (w.st.pending.Some? && ContextKey(w.st.pending.value.context) != ContextKey(c) ==>
            v.st.phase.PendingElsewhere? && v.st.report == None && v.st.error == None)
      && (w.st.pending.None? ==> v.st.report == None && v.st.error == None && v.st.phase in {Idle, Success})
      && (w.st.pending.None? && (w.st.completed.None? || !Shows(v.st, ContextKey(w.st.completed.value.context))) ==>
            && (v.st.phase.Success? <==> w.st.successVersionId == Some(c.versionId))
            && (v.st.phase.Idle? ==> v.st.successVersionId == None))
  {
  }

  /** Showing no context hides everything, and forgets neither the apply nor its result. */
  lemma SwitchHides(w: World)
    ensures var v := Do(w, Switch(None));
      && v == w.(check := None, st := v.st)
      && v.st == State(None, Idle, None, None, w.st.successVersionId, w.st.pending, w.st.completed)
  {
  }

  /** A check shows its report, or its failure, in the context it was begun in and no other. */
  lemma CheckIsShown(w: World, report: Report, text: string)
    requires w.check.Some?
    ensures var here := w.st.context.Some? && ContextKey(w.st.context.value) == w.check.value;
      && Do(w, CheckAnswers(report)) == w.(check := None,
           st := if here then w.st.(phase := Ready, report := Some(report), error := None) else w.st)
      && Do(w, CheckFails(text)) == w.(check := None,
           st := if here then w.st.(phase := Failed, error := Some(Message(text))) else w.st)
  {
  }

  /** A check begins only in a context and while no apply is pending; then all that the one before
      has shown is gone. */
  lemma CheckBegins(w: World)
    ensures var v := Do(w, Inspect);
      if w.st.context.Some? && w.st.pending.None? then
        && v == w.(check := Some(ContextKey(w.st.context.value)), st := v.st)
        && v.st == State(w.st.context, Checking, None, None, None, None, w.st.completed)
      else v == w
  {
  }

  /** Without a pending apply only an applicable report that is shown can be applied, under the
      new id; where one is pending elsewhere nothing is sent. */
  lemma ApplySends(w: World, newId: string)
    ensures var v := Do(w, Apply(newId));
      && (w.st.context.None? || w.st.phase.PendingElsewhere? ==> v == w)
      && (w.st.context.Some? && !w.st.phase.PendingElsewhere? && w.st.pending.None? ==>
            if w.st.report.Some? && w.st.report.value.status == "migratable" && w.st.report.value.applyEnabled then
              var sent := PendingApply(w.st.context.value, newId, w.st.report.value, InProgress);
              && v.inflight == v.st.pending == Some(sent) && v.log == w.log + [Sent(sent)]
              && v.st.phase.Applying? && v.st.error == None && v.st.report == w.st.report
            else v == w)
  {
  }
}
