/** The shape of reachable states: which calls are out, what waits for what, and what has been settled. */
module RendererLaws {
  import opened Wrappers
  import opened Renderer

  function StageOf(e: Entry): Option<Stage> { if e.request.Some? then Some(e.request.value.stage) else None }

  function TaskOf(e: Entry): Task { if e.request.Some? then e.request.value.task else NoTask }

  /** Every call that is out belongs to what the entry is waiting for. */
  ghost predicate CallsInv(w: Wire, e: Entry, sh: Shell) {
    && (w.start.Some? <==> StageOf(e) == Some(Starting))
    && (w.chat.Some? <==> StageOf(e) == Some(Finishing))
    && (w.cancel.Some? <==> TaskOf(e).Flying?)
    && (w.delete.Some? <==> sh.deletion.Called?)
  }

  ghost predicate RequestInv(q: Request) {
    && (!q.acked ==> q.task.NoTask?)
    && (q.stage.Flushing? || q.stage.Starting? ==> !q.acked)
    && (q.stage.Refreshing? || q.stage.Finishing? || q.stage.Draining? || q.stage.CancelWait? ==> q.acked)
    && (q.stage.CancelWait? || q.stage.CancelEnd? ==> q.task.Flying?)
    && (q.stage.Over? ==> q.task.CancelFailed? || q.task.Flying?)
  }

  function Senders(waiters: seq<Waiter>): nat {
    if waiters == [] then 0 else (if waiters[0].Sender? then 1 else 0) + Senders(waiters[1..])
  }

  /** A draft call carries what the entry held, and is the first flush's. */
  ghost predicate FlushInv(e: Entry, draft: Option<DraftCall>) {
    && Senders(e.waiters) == (if StageOf(e) == Some(Flushing) then 1 else 0)
    && (draft.Some? ==> e.waiters != [] && e.dirty && draft.value.version <= e.version)
    && (StageOf(e) == Some(Starting) ==> !e.dirty && draft.None?)
  }

  ghost predicate DeletionInv(s: State) {
    && (s.entry.blocked <==> !s.shell.deletion.NoDeletion? || s.shell.deleted)
    && (!s.shell.deletion.NoDeletion? ==> s.shell.navigating && !s.shell.deleted)
    && (s.shell.deletion.Called? || s.shell.deleted ==> Drained(s))
    && (s.shell.deleted ==> !s.shell.listed)
  }

  ghost predicate Settled(f: Facts) { f.finished && (f.cancel.NoTask? || f.cancel.Acknowledged?) }

  /** All requests but the current one are over, and their cancels acknowledged. */
  ghost predicate LedgerInv(e: Entry, requests: seq<Facts>) {
    if e.request.Some? then
      && requests != []
      && requests[|requests| - 1] == Facts(Finished(e.request.value), e.request.value.task)
      && forall i | 0 <= i < |requests| - 1 :: Settled(requests[i])
    else forall i | 0 <= i < |requests| :: Settled(requests[i])
  }

  ghost predicate Shape(s: State) {
    && CallsInv(s.wire, s.entry, s.shell) && (s.entry.request.Some? ==> RequestInv(s.entry.request.value))
    && FlushInv(s.entry, s.wire.draft) && DeletionInv(s) && LedgerInv(s.entry, s.ledger.requests) && !s.ledger.clash
  }

  /** No flush waits that could have run. */
  ghost predicate Good(s: State) { Shape(s) && (s.entry.waiters != [] ==> s.wire.draft.Some?) }

  // ---------------------------------------------------------------- flushes

  lemma ResumedKeeps(s: State, succeeded: bool)
    requires Shape(s) && s.wire.draft.None? && s.entry.waiters != []
    requires succeeded ==> !s.entry.dirty || s.entry.blocked || s.shell.deleted
    ensures var b := Resumed(PopWaiter(s), s.entry.waiters[0], succeeded);
            Shape(b) && b.wire.draft.None? && b.entry.waiters == s.entry.waiters[1..]
  {}

  lemma {:induction false} PumpKeeps(s: State)
    requires Shape(s)
    ensures Good(Pump(s))
    decreases |s.entry.waiters|
  {
    if s.wire.draft.None? && s.entry.waiters != [] && !(s.entry.dirty && !s.entry.blocked && !s.shell.deleted) {
      hide Shape;
      ResumedKeeps(s, true);
      PumpKeeps(Resumed(PopWaiter(s), s.entry.waiters[0], true));
    }
  }

  lemma FlushEndedKeeps(s: State, succeeded: bool)
    requires Shape(s) && s.wire.draft.None? && s.entry.waiters != []
    requires succeeded ==> !s.entry.dirty || s.entry.blocked || s.shell.deleted
    ensures Good(FlushEnded(s, succeeded))
  {
    hide Shape, Good, Pump, Resumed;
    ResumedKeeps(s, succeeded);
    PumpKeeps(Resumed(PopWaiter(s), s.entry.waiters[0], succeeded));
  }

  lemma {:induction false} SendersAppend(a: seq<Waiter>, w: Waiter)
    ensures Senders(a + [w]) == Senders(a) + (if w.Sender? then 1 else 0)
    decreases |a|
  {
    if a == [] {
      assert [w][1..] == [];
    } else {
      assert (a + [w])[1..] == a[1..] + [w];
      SendersAppend(a[1..], w);
    }
  }

  lemma FlushKeeps(s: State, w: Waiter)
    requires Shape(s.(entry := s.entry.(waiters := s.entry.waiters + [w])))
    ensures Good(Flush(s, w))
  {
    hide Shape, Good, Pump;
    PumpKeeps(s.(entry := s.entry.(waiters := s.entry.waiters + [w])));
  }

  lemma BackgroundKeeps(s: State)
    requires Shape(s)
    ensures Good(Flush(s, Background))
  {
    SendersAppend(s.entry.waiters, Background);
    hide Pump, Senders;
    FlushKeeps(s, Background);
  }

  lemma SendKeeps(s: State, ready: bool)
    requires Good(s)
    ensures Good(Send(s, ready))
  {
    if Sendable(s, ready) {
      SendersAppend(s.entry.waiters, Sender);
      hide Pump, Senders, Flush;
      FlushKeeps(Asked(s, Request(Flushing, false, false, false, false, NoTask)), Sender);
    }
  }

  lemma DeliverDraftKeeps(s: State)
    requires Good(s)
    ensures Good(DeliverDraft(s))
  {
    if s.wire.draft.Some? && !s.wire.draft.value.reply.Sent? {
      var call := s.wire.draft.value;
      var idle := s.(wire := s.wire.(draft := None));
      hide Pump, FlushEnded, Senders;
      assert Shape(idle);
      if call.reply.Refusal? || s.entry.blocked || s.shell.deleted || call.reply.value.version != call.version
          || call.reply.value.draft != call.draft
      {
        FlushEndedKeeps(idle, false);
        if s.entry.blocked || s.shell.deleted { FlushEndedKeeps(idle, true); }
      } else {
        PumpKeeps(Publish(idle.(entry := Cleaned(s.entry, call.version))));
      }
    }
  }

  // ---------------------------------------------------------------- requests

  lemma LedgerCancel(requests: seq<Facts>, task: Task)
    requires requests != []
    ensures var r := LastCancel(requests, task);
            |r| == |requests| && r[|r| - 1] == requests[|r| - 1].(cancel := task) && forall i | 0 <= i < |r| - 1 ::
                r[i] == requests[i]
  {}

  lemma LedgerFinished(requests: seq<Facts>)
    requires requests != []
    ensures var r := LastFinished(requests);
            |r| == |requests| && r[|r| - 1] == requests[|r| - 1].(finished := true) && forall i | 0 <= i < |r| - 1 ::
                r[i] == requests[i]
  {}

  /** Merging a reply leaves everything that the shape looks at. */
  lemma ApplyMeans(s: State, saved: Saved)
    ensures var b := ApplyMessages(s, saved);
            && b == s.(entry := s.entry.(draft := b.entry.draft, version := b.entry.version,
                                         knownPending := b.entry.knownPending),
                       shell := s.shell.(listed := b.shell.listed))
            && s.entry.version <= b.entry.version && (s.shell.deleted ==> b == s)
  {}

  lemma TakeMeans(s: State, saved: Saved)
    requires s.entry.version <= saved.version && s.wire.draft.None?
    ensures var b := TakeStart(s, saved);
            && b == s.(entry := s.entry.(draft := b.entry.draft, version := b.entry.version, dirty := b.entry.dirty,
                                         knownPending := b.entry.knownPending),
                       shell := s.shell.(listed := b.shell.listed))
            && (s.shell.deleted ==> b == s) && (b.entry.dirty ==> s.entry.dirty)
  {}

  lemma CancelUnackedKeeps(s: State)
    requires Shape(s) && (s.entry.request.Some? ==> !s.entry.request.value.acked)
    ensures Shape(CancelEntry(s)) && CancelEntry(s).entry.waiters == s.entry.waiters
            && CancelEntry(s).wire.draft == s.wire.draft
  {
    hide Senders, LastCancel;
  }

  /** Stopping an acknowledged request: at most one cancel call goes out, and none while one is out. */
  lemma CancelAckedMeans(s: State)
    requires s.entry.request.Some? && s.entry.request.value.acked
    ensures var q := s.entry.request.value.(cancelled := true);
            CancelEntry(s) ==
              if q.task.NoTask? || q.task.CancelFailed? then IssueCancel(SetRequest(s, Some(q.(task := Flying))))
              else SetRequest(s, Some(q))
  {
    hide LastCancel;
  }

  lemma IssuedCancelKeeps(s: State)
    requires Shape(s) && s.entry.request.Some? && s.entry.request.value.acked
    requires var q := s.entry.request.value; q.task.NoTask? || q.task.CancelFailed?
    ensures Shape(IssueCancel(SetRequest(s, Some(s.entry.request.value.(cancelled := true, task := Flying)))))
  {
    LedgerCancel(s.ledger.requests, Flying);
    hide Senders, LastCancel;
  }

  lemma CancelAckedKeeps(s: State)
    requires Shape(s) && s.entry.request.Some? && s.entry.request.value.acked
    ensures Shape(CancelEntry(s)) && CancelEntry(s).entry.waiters == s.entry.waiters
            && CancelEntry(s).wire.draft == s.wire.draft
  {
    CancelAckedMeans(s);
    var q := s.entry.request.value;
    if q.task.NoTask? || q.task.CancelFailed? { IssuedCancelKeeps(s); }
    hide Senders, LastCancel, CancelEntry;
  }

  lemma CancelEntryKeeps(s: State)
    requires Shape(s)
    ensures Shape(CancelEntry(s)) && CancelEntry(s).entry.waiters == s.entry.waiters
            && CancelEntry(s).wire.draft == s.wire.draft
  {
    hide Shape, CancelEntry;
    if s.entry.request.Some? && s.entry.request.value.acked { CancelAckedKeeps(s); } else { CancelUnackedKeeps(s); }
  }

  lemma DeliverStartKeeps(s: State)
    requires Good(s) && (s.wire.start.Some? && s.wire.start.value.Answer? ==>
                         s.entry.version <= s.wire.start.value.value.version)
    ensures Good(DeliverStart(s))
  {
    if s.wire.start.Some? && s.wire.start.value.Answer? {
      TakeMeans(s.(wire := s.wire.(start := None)), s.wire.start.value.value);
      LedgerCancel(s.ledger.requests, Flying);
    }
    hide Senders, LastCancel, TakeStart;
  }

  lemma DeliverChatKeeps(s: State)
    requires Good(s)
    ensures Good(DeliverChat(s))
  {
    if s.wire.chat.Some? && s.wire.chat.value.reply.Answer? {
      ApplyMeans(s.(wire := s.wire.(chat := None)), s.wire.chat.value.reply.value);
    }
    hide Senders, ApplyMessages;
  }

  lemma CancelAnsweredKeeps(s: State)
    requires Good(s) && s.wire.cancel.Some? && s.wire.cancel.value.Answer?
    ensures Good(DeliverCancel(s))
  {
    LedgerCancel(s.ledger.requests, Acknowledged);
    ApplyMeans(s.(wire := s.wire.(cancel := None),
                  ledger := s.ledger.(requests := LastCancel(s.ledger.requests, Acknowledged))),
               s.wire.cancel.value.value);
    hide Senders, ApplyMessages, LastCancel;
  }

  lemma CancelRefusedKeeps(s: State)
    requires Good(s) && s.wire.cancel.Some? && s.wire.cancel.value.Refusal?
    ensures Good(DeliverCancel(s))
  {
    LedgerCancel(s.ledger.requests, CancelFailed);
    hide Senders, LastCancel;
  }

  lemma DeliverCancelKeeps(s: State)
    requires Good(s)
    ensures Good(DeliverCancel(s))
  {
    if s.wire.cancel.Some? && s.wire.cancel.value.Answer? {
      CancelAnsweredKeeps(s);
    } else if s.wire.cancel.Some? && s.wire.cancel.value.Refusal? {
      CancelRefusedKeeps(s);
    }
    hide Good;
  }

  lemma TickSettled(s: State)
    requires Good(s) && StageOf(s.entry) == Some(Settling)
    ensures Good(Tick(s))
  {
    LedgerFinished(s.ledger.requests);
    hide Senders, LastFinished;
    if s.entry.request.value.task.Flying? {
    } else if s.entry.request.value.task.CancelFailed? {
    } else {
      forall i | 0 <= i < |s.ledger.requests| ensures Settled(LastFinished(s.ledger.requests)[i]) {}
    }
  }

  lemma TickEarlier(s: State)
    requires Good(s) && StageOf(s.entry) != Some(Settling)
    ensures Good(Tick(s))
  {
    hide Senders, LastFinished;
  }

  lemma TickKeeps(s: State)
    requires Good(s)
    ensures Good(Tick(s))
  {
    hide Good, Tick;
    if StageOf(s.entry) == Some(Settling) { TickSettled(s); } else { TickEarlier(s); }
  }

  lemma ResumeKeeps(s: State)
    requires Good(s)
    ensures Good(Resume(s))
  {
    hide Senders;
  }

  lemma BeginDeleteKeeps(s: State)
    requires Good(s)
    ensures Good(BeginDelete(s))
  {
    if !(s.shell.navigating || s.shell.closing || s.shell.deleted) {
      var marked := s.(shell := s.shell.(navigating := true, deletion := Waiting), entry := s.entry.(blocked := true));
      assert Shape(marked) by { hide Senders; }
      CancelEntryKeeps(marked);
      hide Shape, CancelEntry;
    }
  }

  // ---------------------------------------------------------------- the remaining steps

  lemma SmallStepKeeps(s: State, a: Action)
    requires Good(s) && (a.DoEdit? || a.DoOutdate? || a.DoCallDelete? || a.DoArrive? || a.DoReopen? || a.GotDelete?)
    ensures Good(Act(s, a))
  {
    hide Senders;
  }

  lemma ExecuteKeeps(s: State, a: Action)
    requires Good(s) && (a.RunDraft? || a.RunStart? || a.RunChat? || a.RunCancel? || a.RunDelete?)
    ensures Good(Act(s, a))
  {
    hide Senders;
  }

  lemma LockKeeps(s: State)
    requires Good(s)
    ensures Shape(s) && Shape(s.(shell := s.shell.(closing := true)))
            && Shape(s.(shell := s.shell.(navigating := true)))
  {
    hide Senders;
  }

  lemma CancelKeeps(s: State)
    requires Good(s)
    ensures Good(Cancel(s))
  {
    CancelEntryKeeps(s);
    hide Shape, CancelEntry;
  }
}
