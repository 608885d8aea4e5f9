/** The server log of the primary run and the states its prefixes fold to. */
module EventFold {
  import opened Ordering
  import opened RunEvents

  /** The base snapshot with the log's events applied in order, up to sequence `k`. */
  function FoldTo(log: seq<Event>, base: State, k: int): State
    decreases k
  {
    if k <= Max(base.eventSeq, 0) || k > |log| then base else Apply(FoldTo(log, base, k - 1), log[k - 1])
  }

  ghost predicate LogOk(log: seq<Event>, base: State) {
    && base.run.Some? && 0 <= base.eventSeq <= |log|
    && forall i | 0 <= i < |log| ::
      log[i].seqNo == i + 1 && log[i].workspaceId == base.workspaceId && log[i].runId == base.run.value.id
  }

  ghost predicate Logged(log: seq<Event>, e: Event) {
    1 <= e.seqNo <= |log| && log[e.seqNo - 1] == e
  }

  lemma {:induction false} FoldToGrows(log: seq<Event>, base: State, k: int, e: Event)
    requires k <= |log|
    ensures FoldTo(log + [e], base, k) == FoldTo(log, base, k)
    decreases k
  {
    if k > Max(base.eventSeq, 0) { FoldToGrows(log, base, k - 1, e); }
  }

  lemma NextFold(log: seq<Event>, base: State, s: State, e: Event)
    requires LogOk(log, base) && Logged(log, e) && base.eventSeq < e.seqNo && FoldTo(log, base, e.seqNo - 1) == s
    ensures FoldTo(log, base, e.seqNo) == Apply(s, e)
  {
  }

  /** Folding on never goes back, stays in its workspace and run, and keeps message ids. */
  lemma FoldFrame(log: seq<Event>, base: State, k: int)
    requires LogOk(log, base) && base.eventSeq < k <= |log|
    ensures Framed(FoldTo(log, base, k - 1), FoldTo(log, base, k), log[k - 1])
    ensures FoldTo(log, base, k) == Apply(FoldTo(log, base, k - 1), log[k - 1])
  {
    ApplyFrame(FoldTo(log, base, k - 1), log[k - 1]);
  }

  lemma {:induction false} FoldBounds(log: seq<Event>, base: State, k: int)
    requires LogOk(log, base) && base.eventSeq <= k <= |log|
    ensures var s := FoldTo(log, base, k);
      && base.eventSeq <= s.eventSeq <= k && s.workspaceId == base.workspaceId
      && s.run.Some? && s.run.value.id == base.run.value.id
    decreases k
  {
    if k > base.eventSeq {
      FoldBounds(log, base, k - 1);
      FoldFrame(log, base, k);
    }
  }

  // ----- what a snapshot can restore: everything but the messages and the sequence -----

  /** The graph and the run, without the sequence and the messages. */
  function View(s: State): State { s.(eventSeq := 0, messages := []) }

  function ViewAt(log: seq<Event>, base: State, k: int): State { View(FoldTo(log, base, k)) }

  predicate MakesNotice(e: Event) { IsRetry(e.ev) || IsCancel(e.ev) || IsRecovery(e.ev) }

  /** The id of the notice that the client makes of the event. */
  function NoticeId(e: Event): MessageId
    requires MakesNotice(e)
  {
    if IsRetry(e.ev) then RetryMessage(e).id else if IsCancel(e.ev) then CancelMessage(e).id else RecoveryMessage(e).id
  }

  lemma SameViewNext(s: State, t: State, e: Event)
    requires View(s) == View(t) && s.eventSeq < e.seqNo && t.eventSeq < e.seqNo
    ensures View(Apply(s, e)) == View(Apply(t, e))
  {
  }

  /** An event of the run moves the sequence onto itself, or is a notice that is held already. */
  lemma RunEventAdvances(s: State, e: Event)
    requires e.workspaceId == s.workspaceId && s.run.Some? && e.runId == s.run.value.id && s.eventSeq < e.seqNo
    ensures Apply(s, e).eventSeq == e.seqNo || (Apply(s, e) == s && MakesNotice(e))
  {
  }

  lemma NoticeIsHeld(s: State, e: Event)
    requires MakesNotice(e) && e.workspaceId == s.workspaceId
    ensures HasMessage(Apply(s, e).messages, NoticeId(e))
  {
    AppendedIsFound(s.messages, RetryMessage(e));
    AppendedIsFound(s.messages, CancelMessage(e));
    AppendedIsFound(s.messages, RecoveryMessage(e));
  }

  lemma HeldStays(s: State, e: Event, id: MessageId)
    requires HasMessage(s.messages, id)
    ensures HasMessage(Apply(s, e).messages, id)
  {
    ApplyFrame(s, e);
    var i :| 0 <= i < |s.messages| && s.messages[i].id == id;
    assert Apply(s, e).messages[i] in Apply(s, e).messages;
  }

  /** From one position to the next. */
  lemma NextView(log: seq<Event>, base: State, s: State, n: int)
    requires LogOk(log, base) && base.eventSeq < n <= |log| && s.eventSeq < n && View(s) == ViewAt(log, base, n - 1)
    ensures View(Apply(s, log[n - 1])) == ViewAt(log, base, n)
    ensures Apply(s, log[n - 1]).eventSeq == n
         || (Apply(s, log[n - 1]) == s && ViewAt(log, base, n) == ViewAt(log, base, n - 1))
  {
    FoldBounds(log, base, n - 1);
    FoldFrame(log, base, n);
    var t, e := FoldTo(log, base, n - 1), log[n - 1];
    SameViewNext(s, t, e);
    assert View(s).workspaceId == View(t).workspaceId && View(s).run == View(t).run;
    RunEventAdvances(s, e);
  }
}
