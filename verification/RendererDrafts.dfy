/** Versions and drafts of the window against those of the host. */
module RendererDrafts {
  import opened Wrappers
  import opened Renderer
  import opened RendererLaws

  function Answered(r: Option<Reply<Saved>>): Option<Saved> {
    if r.Some? && r.value.Answer? then Some(r.value.value) else None
  }

  function ChatAnswer(c: Option<Chat>): Option<Saved> {
    if c.Some? && c.value.reply.Answer? then Some(c.value.reply.value) else None
  }

  function DraftAnswer(c: Option<DraftCall>): Option<Saved> {
    if c.Some? && c.value.reply.Answer? then Some(c.value.reply.value) else None
  }

  /** A clean entry is never ahead of the host, an acknowledged start is ahead of the entry, and no
      answer is ahead of the host. */
  ghost predicate AheadInv(s: State) {
    && (!s.entry.dirty ==> s.entry.version <= s.host.version)
    && (Answered(s.wire.start).Some? ==> s.entry.version < Answered(s.wire.start).value.version <= s.host.version)
    && (DraftAnswer(s.wire.draft).Some? ==> DraftAnswer(s.wire.draft).value.version <= s.host.version)
    && (ChatAnswer(s.wire.chat).Some? ==> ChatAnswer(s.wire.chat).value.version <= s.host.version)
    && (Answered(s.wire.cancel).Some? ==> Answered(s.wire.cancel).value.version <= s.host.version)
  }

  /** What the pumping of flushes leaves of the entry, the host and the answers on their way. */
  ghost predicate SameText(a: State, b: State) {
    && b.host == a.host && b.shell == a.shell
    && b.entry.draft == a.entry.draft && b.entry.version == a.entry.version && b.entry.dirty == a.entry.dirty
    && b.wire.chat == a.wire.chat && b.wire.cancel == a.wire.cancel && b.wire.delete == a.wire.delete
    && (Answered(b.wire.start).Some? ==> b.wire.start == a.wire.start)
    && (b.wire.start != a.wire.start ==>
          && b.wire.start == Some(Sent)
          && (a.wire.start.None? ==> !b.entry.dirty || b.entry.blocked || b.shell.deleted))
    && (b.wire.draft == a.wire.draft
        || (b.entry.dirty && b.wire.draft == Some(DraftCall(b.entry.draft, b.entry.version, Sent))))
  }

  lemma ResumedText(s: State, w: Waiter, succeeded: bool)
    requires succeeded ==> !s.entry.dirty || s.entry.blocked || s.shell.deleted
    ensures SameText(s, Resumed(s, w, succeeded)) && Resumed(s, w, succeeded).wire.draft == s.wire.draft
    ensures Resumed(s, w, succeeded).entry.waiters == s.entry.waiters
            && Resumed(s, w, succeeded).entry.blocked == s.entry.blocked
  {}

  lemma {:induction false} PumpText(s: State)
    ensures SameText(s, Pump(s))
    decreases |s.entry.waiters|
  {
    if s.wire.draft.None? && s.entry.waiters != [] && !(s.entry.dirty && !s.entry.blocked && !s.shell.deleted) {
      var next := Resumed(PopWaiter(s), s.entry.waiters[0], true);
      ResumedText(PopWaiter(s), s.entry.waiters[0], true);
      PumpText(next);
      hide Resumed, Pump;
      assert SameText(PopWaiter(s), next) && SameText(next, Pump(next));
    }
  }

  lemma FlushText(s: State, w: Waiter)
    ensures SameText(s, Flush(s, w))
  {
    PumpText(s.(entry := s.entry.(waiters := s.entry.waiters + [w])));
    hide Pump;
  }

  lemma FlushEndedText(s: State, succeeded: bool)
    requires succeeded ==> !s.entry.dirty || s.entry.blocked || s.shell.deleted
    ensures SameText(s, FlushEnded(s, succeeded))
  {
    if s.entry.waiters != [] {
      ResumedText(PopWaiter(s), s.entry.waiters[0], succeeded);
      PumpText(Resumed(PopWaiter(s), s.entry.waiters[0], succeeded));
      hide Resumed, Pump;
    }
  }

  // ---------------------------------------------------------------- versions

  /** One step keeps the order and never takes the entry's version back. */
  ghost predicate Forward(a: State, b: State) { AheadInv(b) && a.entry.version <= b.entry.version }

  lemma SameTextForward(a: State, b: State)
    requires AheadInv(a) && SameText(a, b)
    ensures Forward(a, b)
  {}

  lemma DeliverDraftForward(s: State)
    requires Good(s) && AheadInv(s)
    ensures Forward(s, DeliverDraft(s))
  {
    if s.wire.draft.Some? && !s.wire.draft.value.reply.Sent? {
      var call := s.wire.draft.value;
      var idle := s.(wire := s.wire.(draft := None));
      if call.reply.Refusal? {
        FlushEndedText(idle, false);
        SameTextForward(idle, FlushEnded(idle, false));
      } else if s.entry.blocked || s.shell.deleted {
        FlushEndedText(idle, true);
        SameTextForward(idle, FlushEnded(idle, true));
      } else if call.reply.value.version != call.version || call.reply.value.draft != call.draft {
        FlushEndedText(idle, false);
        SameTextForward(idle, FlushEnded(idle, false));
      } else {
        var clean := Publish(idle.(entry := Cleaned(s.entry, call.version)));
        PumpText(clean);
        SameTextForward(clean, Pump(clean));
      }
    }
    hide Pump, FlushEnded, SameText, Good;
  }

  lemma CancelEntryForward(s: State)
    requires Good(s) && AheadInv(s)
    ensures Forward(s, CancelEntry(s))
  {
    hide Senders, LastCancel, LastFinished, LedgerInv, DeletionInv;
  }

  lemma StoppingForward(s: State, a: Action)
    requires Good(s) && AheadInv(s) && (a.DoCancel? || a.DoDelete?)
    ensures Forward(s, Act(s, a))
  {
    CancelEntryForward(s);
    hide Senders, LastCancel, LastFinished, LedgerInv, DeletionInv, RequestInv;
  }

  lemma WaitingForward(s: State, a: Action)
    requires Good(s) && AheadInv(s) && (a.DoResume? || a.DoTick? || a.DoOutdate? || a.DoCallDelete?)
    ensures Forward(s, Act(s, a))
  {
    hide Senders, LastCancel, LastFinished, LedgerInv, DeletionInv;
  }

  lemma RequestForward(s: State, a: Action)
    requires Good(s) && AheadInv(s)
             && (a.DoResume? || a.DoCancel? || a.DoTick? || a.DoOutdate? || a.DoDelete? || a.DoCallDelete?)
    ensures Forward(s, Act(s, a))
  {
    hide Good, AheadInv, Forward, Act;
    if a.DoCancel? || a.DoDelete? { StoppingForward(s, a); } else { WaitingForward(s, a); }
  }

  lemma StartForward(s: State)
    requires Good(s) && AheadInv(s)
    ensures Forward(s, DeliverStart(s))
  {
    hide Senders, LastCancel, LastFinished, LedgerInv, DeletionInv;
  }

  lemma ChatForward(s: State)
    requires Good(s) && AheadInv(s)
    ensures Forward(s, DeliverChat(s))
  {
    hide Senders, LastCancel, LastFinished, LedgerInv, DeletionInv;
  }

  lemma CancelForward(s: State)
    requires Good(s) && AheadInv(s)
    ensures Forward(s, DeliverCancel(s))
  {
    hide Senders, LastCancel, LastFinished, LedgerInv, DeletionInv;
  }

  lemma ExecuteDraftForward(s: State, accepts: bool, writes: bool)
    requires Good(s) && AheadInv(s)
    ensures Forward(s, ExecuteDraft(s, accepts, writes))
  {
    hide Senders, LedgerInv, DeletionInv, RequestInv;
  }

  lemma ExecuteOtherForward(s: State, a: Action)
    requires Good(s) && AheadInv(s) && (a.RunStart? || a.RunChat? || a.RunCancel? || a.RunDelete?)
    ensures Forward(s, Act(s, a))
  {
    hide Senders, LedgerInv, DeletionInv, RequestInv;
  }

  lemma ExecuteForward(s: State, a: Action)
    requires Good(s) && AheadInv(s) && (a.RunDraft? || a.RunStart? || a.RunChat? || a.RunCancel? || a.RunDelete?)
    ensures Forward(s, Act(s, a))
  {
    hide Good, AheadInv, Forward, ExecuteDraft, ExecuteStart, ExecuteChat, ExecuteCancel, ExecuteDelete;
    if a.RunDraft? { ExecuteDraftForward(s, a.accepts, a.writes); } else { ExecuteOtherForward(s, a); }
  }

  lemma SmallForward(s: State, a: Action)
    requires Good(s) && AheadInv(s) && (a.DoEdit? || a.DoArrive? || a.DoReopen? || a.GotDelete?)
    ensures Forward(s, Act(s, a))
  {
    hide Senders, LedgerInv;
  }

  lemma ActForward(s: State, a: Action)
    requires Good(s) && AheadInv(s)
    ensures Good(Act(s, a)) && Forward(s, Act(s, a))
  {
    hide Good, AheadInv, Forward;
    match a {
      case DoFlush =>
        LockKeeps(s); BackgroundKeeps(s); FlushText(s, Background); SameTextForward(s, Flush(s, Background));
      case DoSend(ready) =>
        SendKeeps(s, ready);
        SendForward(s, ready);
      case DoNavigate =>
        LockKeeps(s);
        NavigateForward(s);
        if !(s.shell.navigating || s.shell.closing) { BackgroundKeeps(s.(shell := s.shell.(navigating := true))); }
      case DoClose =>
        LockKeeps(s);
        CloseForward(s);
        BackgroundKeeps(s.(shell := s.shell.(closing := true)));
      case DoResume => ResumeKeeps(s); RequestForward(s, a);
      case DoCancel => CancelKeeps(s); RequestForward(s, a);
      case DoTick => TickKeeps(s); RequestForward(s, a);
      case DoOutdate => SmallStepKeeps(s, a); RequestForward(s, a);
      case DoDelete => BeginDeleteKeeps(s); RequestForward(s, a);
      case DoCallDelete => SmallStepKeeps(s, a); RequestForward(s, a);
      case GotDraft => DeliverDraftKeeps(s); DeliverDraftForward(s);
      case GotStart => StartInOrder(s); DeliverStartKeeps(s); StartForward(s);
      case GotChat => DeliverChatKeeps(s); ChatForward(s);
      case GotCancel => DeliverCancelKeeps(s); CancelForward(s);
      case DoEdit(_) => SmallStepKeeps(s, a); SmallForward(s, a);
      case DoArrive => SmallStepKeeps(s, a); SmallForward(s, a);
      case DoReopen => SmallStepKeeps(s, a); SmallForward(s, a);
      case GotDelete => SmallStepKeeps(s, a); SmallForward(s, a);
      case _ => ExecuteKeeps(s, a); ExecuteForward(s, a);
    }
    hide Flush, Send, Resume, Cancel, Tick, BeginDelete, DeliverDraft, DeliverStart, DeliverChat, DeliverCancel, Shape,
        SameText, Outdate, CallDelete;
  }

  lemma StartInOrder(s: State)
    requires AheadInv(s)
    ensures s.wire.start.Some? && s.wire.start.value.Answer? ==> s.entry.version <= s.wire.start.value.value.version
  {}

  lemma SendForward(s: State, ready: bool)
    requires AheadInv(s)
    ensures Forward(s, Send(s, ready))
  {
    if Sendable(s, ready) {
      var asked := Asked(s, Request(Flushing, false, false, false, false, NoTask));
      FlushText(asked, Sender);
      hide Flush;
      SameTextForward(asked, Flush(asked, Sender));
    }
  }

  lemma NavigateForward(s: State)
    requires AheadInv(s)
    ensures Forward(s, Navigate(s))
  {
    if !(s.shell.navigating || s.shell.closing) {
      var locked := s.(shell := s.shell.(navigating := true));
      FlushText(locked, Background);
      hide Flush;
      SameTextForward(locked, Flush(locked, Background));
    }
  }

  lemma CloseForward(s: State)
    requires AheadInv(s)
    ensures Forward(s, Close(s))
  {
    var locked := s.(shell := s.shell.(closing := true));
    FlushText(locked, Background);
    hide Flush;
    SameTextForward(locked, Flush(locked, Background));
  }
}
