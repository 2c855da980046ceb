/** What the steps of a message, of stopping it and of deleting a workspace come to when nothing
    fails, from every state at rest. */
module RendererMessages {
  import opened Wrappers
  import opened Renderer
  import opened RendererLaws
  import opened RendererDrafts
  import opened RendererRuns

  /** Nothing is out, nothing is asked for and nothing stands against a message; both sides hold the
      same version, and the same draft unless a newer one is still to be saved. */
  ghost predicate AtRest(s: State) {
    && s.wire == Wire(None, None, None, None, None)
    && s.entry.request == None && s.entry.waiters == [] && !s.entry.blocked && !s.entry.knownPending
    && !s.shell.deleted && !s.shell.navigating && !s.shell.closing && s.shell.deletion == NoDeletion
    && s.host.stands && !s.host.pending
    && (if s.entry.dirty then s.host.version < s.entry.version
        else s.host.version == s.entry.version && s.host.draft == s.entry.draft)
  }

  const ASKED := Request(Flushing, false, false, false, false, NoTask)

  /** A start is on its way, for the draft that both sides hold. */
  ghost predicate StartSent(s: State, b: State) {
    && b.host == s.host.(draft := s.entry.draft, version := s.entry.version)
    && b.entry == s.entry.(dirty := false, request := Some(ASKED.(stage := Starting)))
    && b.wire == Wire(None, Some(Sent), None, None, None) && b.shell == s.shell.(listed := b.shell.listed)
    && b.ledger.starts == s.ledger.starts + 1 && b.ledger.requests == s.ledger.requests + [Facts(false, NoTask)]
  }

  /** A clean draft is started at once. */
  lemma SendClean(s: State)
    requires AtRest(s) && !s.entry.dirty
    ensures StartSent(s, Act(s, DoSend(true)))
  {
    var asked := Asked(s, ASKED);
    var queued := asked.(entry := asked.entry.(waiters := [Sender]));
    assert [] + [Sender] == [Sender] && [Sender][1..] == [];
    assert Send(s, true) == Pump(queued);
    var started := Resumed(PopWaiter(queued), Sender, true);
    assert Pump(queued) == Pump(started) && Pump(started) == started;
    hide Pump;
  }

  /** A draft that is still to be saved is called in first. */
  lemma SendDirty(s: State)
    requires AtRest(s) && s.entry.dirty
    ensures var b := Act(s, DoSend(true));
            && b.wire == Wire(Some(DraftCall(s.entry.draft, s.entry.version, Sent)), None, None, None, None)
            && b.entry == s.entry.(request := Some(ASKED), waiters := [Sender]) && b.host == s.host
               && b.shell == s.shell
            && b.ledger.requests == s.ledger.requests + [Facts(false, NoTask)]
            && b.ledger.drafts == s.ledger.drafts + 1 && b.ledger.starts == s.ledger.starts
  {
    assert [] + [Sender] == [Sender];
  }

  /** Once that call was accepted and answered the message is started. */
  lemma SavedThenStarted(s: State, writes: bool)
    requires AtRest(s) && s.entry.dirty
    ensures StartSent(s, Act(Act(Act(s, DoSend(true)), RunDraft(true, writes)), GotDraft))
  {
    SendDirty(s);
    var sent := Act(s, DoSend(true));
    hide Send;
    var run := Act(sent, RunDraft(true, writes));
    var saved := Saved(s.entry.draft, s.entry.version, false);
    assert run == sent.(host := s.host.(draft := s.entry.draft, version := s.entry.version),
                        wire := sent.wire.(draft := Some(DraftCall(s.entry.draft, s.entry.version, Answer(saved)))));
    AnswerStarts(run, saved);
  }

  lemma AnswerStarts(s: State, saved: Saved)
    requires s.wire == Wire(Some(DraftCall(saved.draft, saved.version, Answer(saved))), None, None, None, None)
    requires s.entry.version == saved.version && !s.entry.blocked && !s.shell.deleted && s.entry.request == Some(ASKED)
    requires s.entry.waiters == [Sender]
    ensures var b := Act(s, GotDraft);
            && b.entry == s.entry.(dirty := false, waiters := [], request := Some(ASKED.(stage := Starting)))
            && b.wire == Wire(None, Some(Sent), None, None, None) && b.host == s.host
            && b.shell == s.shell.(listed := true)
            && b.ledger == s.ledger.(starts := s.ledger.starts + 1, clash := s.ledger.clash)
  {
    var idle := s.(wire := s.wire.(draft := None));
    var clean := Publish(idle.(entry := Cleaned(s.entry, saved.version)));
    assert !clean.entry.dirty && [Sender][1..] == [];
    assert Act(s, GotDraft) == Pump(clean);
    var started := Resumed(PopWaiter(clean), Sender, true);
    assert Pump(clean) == Pump(started) && Pump(started) == started;
    hide Pump;
  }

  /** The host takes the draft, the reply is completed, and the request is over: the message is gone
      from both sides, one version on. */
  lemma StartedThenOver(s: State, b: State)
    requires AtRest(s) && StartSent(s, b)
    ensures var c := Act(Act(Act(Act(Act(Act(b, RunStart(true)), GotStart), DoTick), RunChat(true, false)), GotChat),
                         DoTick);
            && c.host == s.host.(draft := "", version := s.entry.version + 1, pending := false)
            && c.entry == s.entry.(draft := "", version := s.entry.version + 1, dirty := false)
            && c.wire == Wire(None, None, None, None, None) && c.shell == s.shell.(listed := true)
            && c.ledger.requests == s.ledger.requests + [Facts(true, NoTask)]
  {
    var taken := Act(Act(b, RunStart(true)), GotStart);
    var v := s.entry.version + 1;
    assert taken == b.(host := b.host.(draft := "", version := v, pending := true),
                       entry := b.entry.(draft := "", version := v, knownPending := true,
                                         request := Some(Request(Refreshing, true, false, false, false, NoTask))),
                       wire := Wire(None, None, None, None, None), shell := b.shell.(listed := true));
    ReplyCompletes(taken);
    hide Act;
    var facts := s.ledger.requests + [Facts(false, NoTask)];
    assert facts[|facts| - 1 := Facts(true, NoTask)] == s.ledger.requests + [Facts(true, NoTask)];
  }

  lemma ReplyCompletes(t: State)
    requires t.wire == Wire(None, None, None, None, None) && t.host.stands && t.shell.listed && !t.shell.deleted
             && !t.entry.blocked
    requires t.entry.request == Some(Request(Refreshing, true, false, false, false, NoTask)) && !t.entry.dirty
    requires t.host.draft == t.entry.draft && t.host.version == t.entry.version && t.ledger.requests != []
    ensures var n := |t.ledger.requests| - 1;
            Act(Act(Act(Act(t, DoTick), RunChat(true, false)), GotChat), DoTick) ==
            t.(host := t.host.(pending := false), entry := t.entry.(request := None, knownPending := false),
               ledger := t.ledger.(requests := t.ledger.requests[n := t.ledger.requests[n].(finished := true)]))
  {
    var called := Act(t, DoTick);
    assert called == t.(entry := t.entry.(request := Some(Request(Finishing, true, false, false, false, NoTask))),
                        wire := Wire(None, None, Some(Chat(Completing, Sent)), None, None));
    var ran := Act(called, RunChat(true, false));
    var saved := Saved(t.host.draft, t.host.version, false);
    assert ran == called.(host := t.host.(pending := false),
                          wire := Wire(None, None, Some(Chat(Completing, Answer(saved))), None, None));
    var got := Act(ran, GotChat);
    assert got == ran.(entry := t.entry.(knownPending := false,
                                         request := Some(Request(Settling, true, false, false, false, NoTask))),
                       wire := Wire(None, None, None, None, None));
  }

  // ---------------------------------------------------------------- stopping

  /** Stopped before its start came back: the acknowledged start is stopped at the host, and the
      request is over with its cancel acknowledged. */
  lemma StoppedEarly(s: State, b: State)
    requires AtRest(s) && StartSent(s, b)
    ensures var c := Act(Act(Act(Act(Act(Act(b, DoCancel), RunStart(true)), GotStart), RunCancel(true, true)),
                             GotCancel), DoTick);
            && c.host == s.host.(draft := "", version := s.entry.version + 1, pending := false)
            && c.entry == s.entry.(draft := "", version := s.entry.version + 1, dirty := false)
            && c.wire == Wire(None, None, None, None, None) && c.shell == s.shell.(listed := true)
            && c.ledger.requests == s.ledger.requests + [Facts(true, Acknowledged)]
            && c.ledger.cancels == b.ledger.cancels + 1
  {
    var v := s.entry.version + 1;
    var stopped := Act(b, DoCancel);
    assert stopped == b.(entry := b.entry.(request := Some(Request(Starting, false, true, false, false, NoTask))));
    var ran := Act(stopped, RunStart(true));
    var saved := Saved("", v, true);
    assert ran == stopped.(host := b.host.(draft := "", version := v, pending := true),
                           wire := Wire(None, Some(Answer(saved)), None, None, None));
    var taken := Act(ran, GotStart);
    AckThenCancel(ran, saved);
    CancelLands(taken);
    hide Act;
    var facts := s.ledger.requests;
    assert LastCancel(facts + [Facts(false, NoTask)], Flying) == facts + [Facts(false, Flying)];
    assert LastCancel(facts + [Facts(false, Flying)], Acknowledged) == facts + [Facts(false, Acknowledged)];
    assert LastFinished(facts + [Facts(false, Acknowledged)]) == facts + [Facts(true, Acknowledged)];
  }

  lemma AckThenCancel(s: State, saved: Saved)
    requires s.wire == Wire(None, Some(Answer(saved)), None, None, None) && !s.entry.blocked && !s.shell.deleted
    requires s.entry.request == Some(Request(Starting, false, true, false, false, NoTask))
    ensures Act(s, GotStart) ==
            s.(entry := s.entry.(draft := saved.draft, version := saved.version, dirty := false,
                                 knownPending := saved.pending,
                                 request := Some(Request(CancelWait, true, true, false, false, Flying))),
               wire := Wire(None, None, None, Some(Sent), None), shell := s.shell.(listed := true),
               ledger := s.ledger.(cancels := s.ledger.cancels + 1, requests := LastCancel(s.ledger.requests, Flying)))
  {
    hide LastCancel;
  }

  lemma CancelLands(t: State)
    requires t.wire == Wire(None, None, None, Some(Sent), None) && t.host.stands && !t.entry.blocked && !t.shell.deleted
             && t.shell.listed
    requires t.entry.request == Some(Request(CancelWait, true, true, false, false, Flying)) && !t.entry.dirty
    requires t.host.draft == t.entry.draft && t.host.version == t.entry.version
    ensures Act(Act(Act(t, RunCancel(true, true)), GotCancel), DoTick) ==
            t.(host := t.host.(pending := false), entry := t.entry.(request := None, knownPending := false),
               wire := Wire(None, None, None, None, None),
               ledger := t.ledger.(requests := LastFinished(LastCancel(t.ledger.requests, Acknowledged))))
  {
    hide LastCancel, LastFinished;
    var ran := Act(t, RunCancel(true, true));
    var saved := Saved(t.host.draft, t.host.version, false);
    assert ran == t.(host := t.host.(pending := false), wire := Wire(None, None, None, Some(Answer(saved)), None));
    var got := Act(ran, GotCancel);
    assert got == ran.(entry := t.entry.(knownPending := false,
                                         request := Some(Request(Settling, true, true, false, false, Acknowledged))),
                       wire := Wire(None, None, None, None, None),
                       ledger := t.ledger.(requests := LastCancel(t.ledger.requests, Acknowledged)));
  }

  // ---------------------------------------------------------------- deleting

  /** A workspace at rest is deleted: the row is gone, the entry is closed for good and unlisted. */
  lemma DeletedAtRest(s: State)
    requires AtRest(s)
    ensures var c := Act(Act(Act(Act(s, DoDelete), DoCallDelete), RunDelete(true)), GotDelete);
            && c.host == s.host.(stands := false) && c.entry == s.entry.(blocked := true)
            && c.wire == Wire(None, None, None, None, None)
            && c.shell == Shell(NoDeletion, true, false, false, false)
  {}

  /** A refusal leaves it as it was. */
  lemma DeleteRefusedAtRest(s: State)
    requires AtRest(s)
    ensures var c := Act(Act(Act(Act(s, DoDelete), DoCallDelete), RunDelete(false)), GotDelete);
            c == s.(ledger := c.ledger) && c.ledger == s.ledger.(clash := s.ledger.clash)
  {}

  // ---------------------------------------------------------------- what is refused, and what comes back

  ghost predicate MaySend(s: State, ready: bool) {
    && ready && s.entry.request == None && !s.entry.knownPending
    && !s.entry.blocked && !s.shell.deleted && !s.shell.navigating && !s.shell.closing
  }

  lemma {:induction false} PumpAsks(s: State)
    ensures Pump(s).ledger.requests == s.ledger.requests && (s.entry.request.Some? <==> Pump(s).entry.request.Some?)
    decreases |s.entry.waiters|
  {
    if s.wire.draft.None? && s.entry.waiters != [] && !(s.entry.dirty && !s.entry.blocked && !s.shell.deleted) {
      PumpAsks(Resumed(PopWaiter(s), s.entry.waiters[0], true));
    }
  }

  /** A sending makes exactly one request when nothing stands against it, and else changes nothing. */
  lemma SendExactly(s: State, ready: bool)
    ensures var b := Act(s, DoSend(ready));
            if MaySend(s, ready) then b.entry.request.Some?
                && b.ledger.requests == s.ledger.requests + [Facts(false, NoTask)]
            else b == s
  {
    if MaySend(s, ready) {
      var asked := Asked(s, ASKED);
      PumpAsks(asked.(entry := asked.entry.(waiters := asked.entry.waiters + [Sender])));
    }
    hide Pump;
  }

  /** The reply to a current request brings a workspace back: a draft that is to be saved stays, any
      other gives way to one at least as new, and the version never falls. Nothing of it reaches an
      entry that is blocked or deleted, or one whose request was cancelled or is out of date. */
  lemma ReplyExactly(s: State, kind: ChatKind, saved: Saved)
    requires s.wire.chat == Some(Chat(kind, Answer(saved))) && s.entry.request.Some?
    ensures var b, q := Act(s, GotChat), s.entry.request.value;
            var taken := !s.entry.blocked && !s.shell.deleted && !q.cancelled && (q.resumed || !q.stale);
            && b.entry == s.entry.(
                 draft := if taken && !s.entry.dirty && s.entry.version <= saved.version then saved.draft
                     else s.entry.draft,
                 version := if taken && s.entry.version < saved.version then saved.version else s.entry.version,
                 knownPending := if taken then saved.pending else s.entry.knownPending,
                 request := Some(q.(stage := Settling)))
            && b.wire == s.wire.(chat := None) && b.host == s.host && b.ledger == s.ledger
  {}

  // ---------------------------------------------------------------- single steps of a request

  function LastOf(requests: seq<Facts>, facts: Facts): seq<Facts>
    requires requests != []
  {
    requests[..|requests| - 1] + [facts]
  }

  /** A cancel marks the request. The call goes out at once when the start was acknowledged and none went
      out before or the last one failed; a start still on its way is stopped when it comes back. */
  lemma CancelExactly(s: State)
    requires s.entry.request.Some? && s.ledger.requests != []
    ensures var b, q := Act(s, DoCancel), s.entry.request.value;
            var call := q.acked && (q.task == NoTask || q.task == Task.CancelFailed);
            var task := if call then Flying else if q.task == Task.CancelFailed then NoTask else q.task;
            if s.shell.deleted then b == s
            else
              && b.entry == s.entry.(request := Some(q.(cancelled := true, task := task)))
              && b.wire == s.wire.(cancel := if call then Some(Sent) else s.wire.cancel)
              && b.host == s.host && b.shell == s.shell
              && (!call ==> b.ledger == s.ledger)
              && (call ==> b.ledger.cancels == s.ledger.cancels + 1
                           && b.ledger.requests ==
                              LastOf(s.ledger.requests, s.ledger.requests[|s.ledger.requests| - 1].(cancel := Flying)))
  {
    var n := |s.ledger.requests| - 1;
    assert LastCancel(s.ledger.requests, Flying) ==
           LastOf(s.ledger.requests, s.ledger.requests[n].(cancel := Flying));
    hide LastCancel, LastOf;
  }

  /** The answer to a cancel: what waited for it goes on, what only waited for it is over; a failed one
      keeps a finished request, so that it may be cancelled again. */
  lemma CancelAnswerExactly(s: State)
    requires s.wire.cancel.Some? && s.wire.cancel != Some(Sent) && s.entry.request.Some?
    ensures var b, q := Act(s, GotCancel), s.entry.request.value;
            var task := if s.wire.cancel == Some(Refusal) then Task.CancelFailed else Acknowledged;
            && b.wire == s.wire.(cancel := None) && b.host == s.host
            && b.entry.request ==
               (if q.stage == CancelWait then Some(q.(stage := Settling, task := task))
                else if q.stage == CancelEnd || q.stage == Over then
                  if task == Acknowledged then None else Some(q.(stage := Over, task := task))
                else Some(q.(task := task)))
            && (s.wire.cancel == Some(Refusal) ==> b.entry == s.entry.(request := b.entry.request))
  {
    hide LastCancel;
  }

  /** The answer to a start: the entry takes the host's draft and version, and waits for the reply, or
      stops it when it was cancelled meanwhile; a refusal ends the request and keeps the draft. */
  lemma StartAnswerExactly(s: State, saved: Saved)
    requires s.wire.start.Some? && s.entry.request.Some?
    requires s.wire.cancel == None && s.entry.request.value.task == NoTask
    ensures s.wire.start == Some(Refusal) ==>
              Act(s, GotStart) == s.(wire := s.wire.(start := None),
                                     entry := s.entry.(request := Some(s.entry.request.value.(stage := Settling))))
    ensures s.wire.start == Some(Answer(saved)) ==>
              var b, q := Act(s, GotStart), s.entry.request.value;
              var open := !s.entry.blocked && !s.shell.deleted;
              var stop := q.cancelled || q.stale || s.entry.blocked;
              && b.entry == s.entry.(
                   draft := if open then saved.draft else s.entry.draft,
                   version := if open then saved.version else s.entry.version,
                   dirty := if open then false else s.entry.dirty,
                   knownPending := if open then saved.pending else s.entry.knownPending,
                   request := Some(q.(acked := true, stage := if stop then CancelWait else Refreshing,
                                      task := if stop then Flying else NoTask)))
              && b.wire == s.wire.(start := None, cancel := if stop then Some(Sent) else None) && b.host == s.host
  {
    hide LastCancel;
  }

  /** A refused completion is asked about once more, a refused recovery or resumption is not. */
  lemma ReplyRefusedExactly(s: State, kind: ChatKind)
    requires s.wire.chat == Some(Chat(kind, Refusal)) && s.entry.request.Some?
    ensures var q := s.entry.request.value;
            Act(s, GotChat) ==
            s.(wire := s.wire.(chat := None),
               entry := s.entry.(request := Some(q.(stage := if kind == Completing && !q.resumed then Draining
                                                    else Settling))))
  {}

  /** What a wait on the runtime leads to, stage by stage. */
  lemma WaitExactly(s: State)
    requires s.entry.request.Some? && s.ledger.requests != []
    ensures var b, q := Act(s, DoTick), s.entry.request.value;
            var again := !s.entry.blocked && !s.shell.deleted && !q.cancelled && !q.stale && q.acked;
            if q.stage == Refreshing then
              b.entry == s.entry.(request := Some(q.(stage := Finishing)))
              && b.wire == s.wire.(chat := Some(Chat(Completing, Sent)))
            else if q.stage == Draining && again then
              b.entry == s.entry.(request := Some(q.(stage := Finishing)))
              && b.wire == s.wire.(chat := Some(Chat(Recovering, Sent)))
            else if q.stage == Draining then
              b == s.(entry := s.entry.(request := Some(q.(stage := Settling))))
            else if q.stage == Settling then
              && b.wire == s.wire
              && b.entry == s.entry.(request := if q.task == Flying then Some(q.(stage := CancelEnd))
                                                else if q.task == Task.CancelFailed then Some(q.(stage := Over))
                                                    else None)
              && b.ledger == s.ledger.(requests :=
                   LastOf(s.ledger.requests, s.ledger.requests[|s.ledger.requests| - 1].(finished := true)))
            else b == s
  {
    var n := |s.ledger.requests| - 1;
    assert LastFinished(s.ledger.requests) ==
           LastOf(s.ledger.requests, s.ledger.requests[n].(finished := true));
    hide LastFinished, LastOf;
  }

  /** A pending reply that nobody asked about here is taken up as a request that was acknowledged. */
  lemma ResumeExactly(s: State)
    ensures var b := Act(s, DoResume);
            if !s.shell.deleted && s.entry.knownPending && s.entry.request == None && !s.entry.blocked
                && !s.shell.closing
            then
              && b.entry == s.entry.(request := Some(Request(Finishing, true, false, false, true, NoTask)))
              && b.wire == s.wire.(chat := Some(Chat(Completing, Sent)))
              && b.ledger.requests == s.ledger.requests + [Facts(false, NoTask)]
            else b == s
  {}

  /** What the host does with a call: only a row that stands answers, only a newer draft is written, a
      message starts only when none is pending, and only a cancel that names the reply ends it. */
  lemma HostExactly(s: State, accepts: bool, flag: bool)
    ensures s.wire.draft.Some? && s.wire.draft.value.reply == Sent ==>
              var b, call := Act(s, RunDraft(accepts, flag)), s.wire.draft.value;
              var writes := s.host.stands && (accepts || flag) && s.host.version < call.version;
              && b.host == (if writes then s.host.(draft := call.draft, version := call.version) else s.host)
              && b.wire.draft == Some(call.(reply := if accepts && s.host.stands
                                                     then Answer(Saved(b.host.draft, b.host.version, b.host.pending))
                                                     else Refusal))
    ensures s.wire.start == Some(Sent) ==>
              var b := Act(s, RunStart(accepts));
              if accepts && s.host.stands && !s.host.pending then
                && b.host == s.host.(draft := "", version := s.host.version + 1, pending := true)
                && b.wire.start == Some(Answer(Saved("", s.host.version + 1, true)))
              else b.host == s.host && b.wire.start == Some(Refusal)
    ensures s.wire.cancel == Some(Sent) ==>
              var b := Act(s, RunCancel(accepts, flag));
              if accepts && s.host.stands then
                && b.host == s.host.(pending := s.host.pending && !flag)
                && b.wire.cancel == Some(Answer(Saved(s.host.draft, s.host.version, b.host.pending)))
              else b.host == s.host && b.wire.cancel == Some(Refusal)
  {}

  /** A deletion is asked for once, closes the entry and stops its request; the call waits until no draft
      call is out and no request is at work. */
  lemma DeleteExactly(s: State)
    requires s.entry.request == None
    ensures var b := Act(s, DoDelete);
            b == if s.shell.navigating || s.shell.closing || s.shell.deleted then s
                 else s.(shell := s.shell.(navigating := true, deletion := Waiting), entry := s.entry.(blocked := true))
    ensures var b := Act(s, DoCallDelete);
            if s.shell.deletion == Waiting && s.wire.draft == None
            then b.shell == s.shell.(deletion := Called) && b.wire == s.wire.(delete := Some(Sent))
                && b.entry == s.entry
            else b == s
  {}

  /** A draft that could not be saved keeps its sender from starting: the request ends and the text stays
      to be saved. */
  lemma UnsavedIsNotStarted(s: State)
    requires s.wire.draft.Some? && s.entry.waiters == [Sender] && s.entry.request.Some?
    requires s.entry.request.value.stage == Flushing
    requires s.wire.draft.value.reply == Refusal
    ensures Act(s, GotDraft) ==
            s.(wire := s.wire.(draft := None),
               entry := s.entry.(waiters := [], request := Some(s.entry.request.value.(stage := Settling))))
  {
    assert [Sender][1..] == [];
  }
}
