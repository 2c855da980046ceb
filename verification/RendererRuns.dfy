/** The main results about the window and the host, over every run. */
module RendererRuns {
  import opened Wrappers
  import opened Renderer
  import opened RendererLaws
  import opened RendererDrafts

  // ---------------------------------------------------------------- agreement of drafts

  ghost predicate AnswerLevel(h: Host, saved: Option<Saved>) {
    saved.Some? && saved.value.version == h.version ==> saved.value.draft == h.draft
  }

  ghost predicate CallLevel(s: State, call: DraftCall) {
    && s.host.version <= call.version && (s.host.version == call.version ==> s.host.draft == call.draft)
    && (call.version == s.entry.version ==> call.draft == s.entry.draft)
    && (call.reply.Answer? ==> call.reply.value.draft == call.draft && call.reply.value.version == call.version)
  }

  /** The host is never ahead of the entry, but by a start whose acknowledgement is on its way, and
      one version never stands for two drafts. */
  ghost predicate LevelInv(s: State) {
    && (if Answered(s.wire.start).Some?
        then s.host.version == s.entry.version + 1
            && Answered(s.wire.start) == Some(Snapshot(s.host).(pending := Answered(s.wire.start).value.pending))
        else s.host.version <= s.entry.version && (s.host.version == s.entry.version ==> s.host.draft == s.entry.draft))
    && (s.wire.draft.Some? ==> CallLevel(s, s.wire.draft.value))
    && AnswerLevel(s.host, ChatAnswer(s.wire.chat)) && AnswerLevel(s.host, Answered(s.wire.cancel))
  }

  /** The acknowledgement of a start comes back while the entry is blocked for deletion. */
  predicate AckDropped(s: State, a: Action) {
    a.GotStart? && Answered(s.wire.start).Some? && s.entry.blocked
  }

  /** With nothing of the draft under way, both sides hold the same draft at the same version. */
  ghost predicate QuietAgrees(s: State) {
    !s.shell.deleted && !s.entry.dirty && s.wire.draft.None? && s.wire.start.None? ==>
      s.host.draft == s.entry.draft && s.host.version == s.entry.version
  }

  lemma LevelMeans(s: State)
    requires AheadInv(s) && LevelInv(s)
    ensures QuietAgrees(s)
  {}

  lemma SameTextLevel(a: State, b: State)
    requires LevelInv(a) && SameText(a, b) && a.wire.start.None?
    ensures LevelInv(b)
  {}

  lemma PumpedLevel(a: State, b: State)
    requires LevelInv(a) && SameText(a, b)
    requires a.wire.start.Some? ==> b.wire.start == a.wire.start && !a.entry.dirty
    ensures LevelInv(b)
  {}

  lemma NoStartWhileFlushing(s: State)
    requires Good(s) && s.wire.draft.Some?
    ensures s.wire.start.None?
  {
    hide Senders;
  }

  lemma DeliverDraftLevel(s: State)
    requires Good(s) && AheadInv(s) && LevelInv(s)
    ensures LevelInv(DeliverDraft(s))
  {
    if s.wire.draft.Some? && !s.wire.draft.value.reply.Sent? {
      NoStartWhileFlushing(s);
      var call := s.wire.draft.value;
      var idle := s.(wire := s.wire.(draft := None));
      if call.reply.Refusal?
          || (!(s.entry.blocked || s.shell.deleted)
              && (call.reply.value.version != call.version || call.reply.value.draft != call.draft))
      {
        FlushEndedText(idle, false);
        SameTextLevel(idle, FlushEnded(idle, false));
      } else if s.entry.blocked || s.shell.deleted {
        FlushEndedText(idle, true);
        SameTextLevel(idle, FlushEnded(idle, true));
      } else {
        var clean := Publish(idle.(entry := Cleaned(s.entry, call.version)));
        PumpText(clean);
        SameTextLevel(clean, Pump(clean));
      }
    }
    hide Pump, FlushEnded, SameText, Good;
  }

  lemma PumpingLevel(s: State, a: Action)
    requires Good(s) && AheadInv(s) && LevelInv(s) && (a.DoFlush? || a.DoSend? || a.DoNavigate? || a.DoClose?)
    ensures LevelInv(Act(s, a))
  {
    hide Flush, Senders;
    match a {
      case DoFlush => FlushText(s, Background); StartUntouched(s, Background); PumpedLevel(s, Flush(s, Background));
      case DoSend(ready) =>
        if Sendable(s, ready) {
          var asked := Asked(s, Request(Flushing, false, false, false, false, NoTask));
          assert s.wire.start.None?;
          FlushText(asked, Sender);
          PumpedLevel(asked, Flush(asked, Sender));
        }
      case DoNavigate =>
        if !(s.shell.navigating || s.shell.closing) {
          var locked := s.(shell := s.shell.(navigating := true));
          FlushText(locked, Background);
          StartUntouched(locked, Background);
          PumpedLevel(locked, Flush(locked, Background));
        }
      case DoClose =>
        var locked := s.(shell := s.shell.(closing := true));
        FlushText(locked, Background);
        StartUntouched(locked, Background);
        PumpedLevel(locked, Flush(locked, Background));
    }
  }

  /** A start that is out stays as it is while flushes run. */
  lemma {:induction false} PumpStart(s: State)
    requires s.wire.start.Some? ==> StageOf(s.entry) == Some(Starting)
    ensures s.wire.start.Some? ==> Pump(s).wire.start == s.wire.start
    decreases |s.entry.waiters|
  {
    if s.wire.draft.None? && s.entry.waiters != [] && !(s.entry.dirty && !s.entry.blocked && !s.shell.deleted) {
      PumpStart(Resumed(PopWaiter(s), s.entry.waiters[0], true));
    }
  }

  lemma StartUntouched(s: State, w: Waiter)
    requires s.wire.start.Some? ==> StageOf(s.entry) == Some(Starting)
    ensures s.wire.start.Some? ==> Flush(s, w).wire.start == s.wire.start
  {
    PumpStart(s.(entry := s.entry.(waiters := s.entry.waiters + [w])));
    hide Pump;
  }

  lemma StartLevel(s: State)
    requires Good(s) && AheadInv(s) && LevelInv(s) && !AckDropped(s, GotStart)
    ensures LevelInv(DeliverStart(s))
  {
    hide Senders, LastCancel, LastFinished, LedgerInv;
  }

  lemma ChatLevel(s: State)
    requires Good(s) && AheadInv(s) && LevelInv(s)
    ensures LevelInv(DeliverChat(s))
  {
    hide Senders, LastCancel, LastFinished, LedgerInv, DeletionInv;
  }

  lemma CancelLevel(s: State)
    requires Good(s) && AheadInv(s) && LevelInv(s)
    ensures LevelInv(DeliverCancel(s))
  {
    hide Senders, LastCancel, LastFinished, LedgerInv, DeletionInv;
  }

  lemma TickText(s: State)
    ensures var b := Tick(s);
            && b.host == s.host && b.entry.draft == s.entry.draft && b.entry.version == s.entry.version
            && b.wire == s.wire.(chat := b.wire.chat) && (b.wire.chat == s.wire.chat || ChatAnswer(b.wire.chat).None?)
  {
    hide LastFinished;
  }

  lemma TickLevel(s: State)
    requires LevelInv(s)
    ensures LevelInv(Tick(s))
  {
    TickText(s);
    hide Tick;
  }

  lemma RequestLevel(s: State, a: Action)
    requires Good(s) && LevelInv(s) && (a.DoResume? || a.DoOutdate? || a.DoCallDelete?)
    ensures LevelInv(Act(s, a))
  {
    hide Senders, LedgerInv, DeletionInv, RequestInv, FlushInv;
  }

  /** Stopping a request leaves the drafts and the answers under way as they are. */
  lemma CancelEntryText(s: State)
    ensures var b := CancelEntry(s);
            && b.host == s.host && b.entry.draft == s.entry.draft && b.entry.version == s.entry.version
            && b.wire == s.wire.(cancel := b.wire.cancel)
               && (b.wire.cancel == s.wire.cancel || b.wire.cancel == Some(Sent))
  {
    hide LastCancel;
  }

  lemma CancellingLevel(s: State, a: Action)
    requires LevelInv(s) && (a.DoCancel? || a.DoDelete?)
    ensures LevelInv(Act(s, a))
  {
    hide CancelEntry;
    CancelEntryText(s);
    var closing := s.(shell := s.shell.(navigating := true, deletion := Waiting), entry := s.entry.(blocked := true));
    CancelEntryText(closing);
  }

  lemma ExecuteDraftLevel(s: State, accepts: bool, writes: bool)
    requires Good(s) && AheadInv(s) && LevelInv(s)
    ensures LevelInv(ExecuteDraft(s, accepts, writes))
  {
    hide Senders, LedgerInv, DeletionInv;
  }

  lemma ExecuteOtherLevel(s: State, a: Action)
    requires Good(s) && AheadInv(s) && LevelInv(s) && (a.RunStart? || a.RunChat? || a.RunCancel? || a.RunDelete?)
    ensures LevelInv(Act(s, a))
  {
    hide Senders, LedgerInv, DeletionInv, RequestInv;
  }

  lemma ExecuteLevel(s: State, a: Action)
    requires Good(s) && AheadInv(s) && LevelInv(s)
    requires a.RunDraft? || a.RunStart? || a.RunChat? || a.RunCancel? || a.RunDelete?
    ensures LevelInv(Act(s, a))
  {
    hide Good, AheadInv, LevelInv, ExecuteDraft, ExecuteStart, ExecuteChat, ExecuteCancel, ExecuteDelete;
    if a.RunDraft? { ExecuteDraftLevel(s, a.accepts, a.writes); } else { ExecuteOtherLevel(s, a); }
  }

  lemma SmallLevel(s: State, a: Action)
    requires Good(s) && LevelInv(s) && (a.DoEdit? || a.DoArrive? || a.DoReopen? || a.GotDelete?)
    ensures LevelInv(Act(s, a))
  {
    hide Senders, LedgerInv, DeletionInv;
  }

  lemma ActLevel(s: State, a: Action)
    requires Good(s) && AheadInv(s) && LevelInv(s) && !AckDropped(s, a)
    ensures LevelInv(Act(s, a))
  {
    hide Good, AheadInv, LevelInv;
    match a {
      case DoFlush => PumpingLevel(s, a);
      case DoSend(_) => PumpingLevel(s, a);
      case DoNavigate => PumpingLevel(s, a);
      case DoClose => PumpingLevel(s, a);
      case GotDraft => DeliverDraftLevel(s);
      case GotStart => StartLevel(s);
      case GotChat => ChatLevel(s);
      case GotCancel => CancelLevel(s);
      case DoEdit(_) => SmallLevel(s, a);
      case DoArrive => SmallLevel(s, a);
      case DoReopen => SmallLevel(s, a);
      case GotDelete => SmallLevel(s, a);
      case DoResume => RequestLevel(s, a);
      case DoCancel => CancellingLevel(s, a);
      case DoTick => TickLevel(s);
      case DoOutdate => RequestLevel(s, a);
      case DoDelete => CancellingLevel(s, a);
      case DoCallDelete => RequestLevel(s, a);
      case _ => ExecuteLevel(s, a);
    }
    hide Flush, Send, Resume, Cancel, Tick, BeginDelete, DeliverDraft, DeliverStart, DeliverChat, DeliverCancel,
        Outdate, CallDelete;
  }

  // ---------------------------------------------------------------- runs

  ghost predicate Run(trace: seq<State>, actions: seq<Action>) {
    && |trace| == |actions| + 1
    && (exists draft, version: nat, pending :: trace[0] == Begin(draft, version, pending))
    && (forall i | 0 <= i < |actions| :: trace[i + 1] == Act(trace[i], actions[i]))
  }

  lemma BeginIsGood(draft: string, version: nat, pending: bool)
    ensures Good(Begin(draft, version, pending)) && AheadInv(Begin(draft, version, pending))
            && LevelInv(Begin(draft, version, pending))
  {}

  lemma {:induction false} Always(trace: seq<State>, actions: seq<Action>, i: nat)
    requires Run(trace, actions) && i <= |actions|
    ensures Good(trace[i]) && AheadInv(trace[i])
  {
    hide Act, Good, AheadInv;
    if i == 0 {
      var draft, version: nat, pending :| trace[0] == Begin(draft, version, pending);
      BeginIsGood(draft, version, pending);
    } else {
      Always(trace, actions, i - 1);
      ActForward(trace[i - 1], actions[i - 1]);
      assert trace[i - 1 + 1] == Act(trace[i - 1], actions[i - 1]);
    }
  }

  /** The version the window holds never goes back. */
  lemma {:induction false} VersionsNeverDecrease(trace: seq<State>, actions: seq<Action>, i: nat, j: nat)
    requires Run(trace, actions) && i <= j <= |actions|
    ensures trace[i].entry.version <= trace[j].entry.version
    decreases j
  {
    hide Act, Good, AheadInv;
    if i < j {
      VersionsNeverDecrease(trace, actions, i, j - 1);
      Always(trace, actions, j - 1);
      ActForward(trace[j - 1], actions[j - 1]);
      assert trace[j - 1 + 1] == Act(trace[j - 1], actions[j - 1]);
    }
  }

  lemma {:induction false} LevelUnlessDropped(trace: seq<State>, actions: seq<Action>, i: nat)
    requires Run(trace, actions) && i <= |actions|
    requires forall k | 0 <= k < i :: !AckDropped(trace[k], actions[k])
    ensures LevelInv(trace[i])
  {
    hide Act, Good, AheadInv, LevelInv, AckDropped;
    if i == 0 {
      var draft, version: nat, pending :| trace[0] == Begin(draft, version, pending);
      BeginIsGood(draft, version, pending);
    } else {
      LevelUnlessDropped(trace, actions, i - 1);
      Always(trace, actions, i - 1);
      ActLevel(trace[i - 1], actions[i - 1]);
      assert trace[i - 1 + 1] == Act(trace[i - 1], actions[i - 1]);
    }
  }

  /** A dropped acknowledgement leaves the host ahead with nothing under way. */
  lemma DroppedDisagrees(s: State)
    requires Good(s) && AheadInv(s) && AckDropped(s, GotStart)
    ensures !QuietAgrees(DeliverStart(s))
  {
    hide Senders, LastCancel, LastFinished, LedgerInv;
  }

  /** Over a whole run the drafts agree in every quiet state if and only if no acknowledgement of a
      start came back while the entry was blocked for deletion. */
  lemma AgreementIffNoAckDropped(trace: seq<State>, actions: seq<Action>)
    requires Run(trace, actions)
    ensures (forall i | 0 <= i <= |actions| :: QuietAgrees(trace[i])) <==>
            (forall i | 0 <= i < |actions| :: !AckDropped(trace[i], actions[i]))
  {
    hide Act, Good, AheadInv, LevelInv, QuietAgrees, AckDropped;
    if forall i | 0 <= i < |actions| :: !AckDropped(trace[i], actions[i]) {
      forall i | 0 <= i <= |actions| ensures QuietAgrees(trace[i]) {
        LevelUnlessDropped(trace, actions, i);
        Always(trace, actions, i);
        LevelMeans(trace[i]);
      }
    } else {
      var i :| 0 <= i < |actions| && AckDropped(trace[i], actions[i]);
      Always(trace, actions, i);
      DroppedIs(trace[i], actions[i]);
      DroppedDisagrees(trace[i]);
      assert trace[i + 1] == Act(trace[i], actions[i]);
      assert !QuietAgrees(trace[i + 1]);
    }
  }

  lemma DroppedIs(s: State, a: Action)
    requires AckDropped(s, a)
    ensures AckDropped(s, GotStart) && a.GotStart? && Act(s, a) == DeliverStart(s)
  {}

  // ---------------------------------------------------------------- what a refused delete leaves

  /** The same of an entry that is not blocked: the drafts the operator can see and work on. */
  ghost predicate OpenAgrees(s: State) { !s.entry.blocked ==> QuietAgrees(s) }

  predicate DeleteRefused(s: State, a: Action) { a.GotDelete? && s.wire.delete == Some(Refusal) }

  /** An acknowledgement is dropped at step `i`, and at step `j` that same deletion is refused. */
  ghost predicate RefusedAfterDrop(trace: seq<State>, actions: seq<Action>, i: nat, j: nat) {
    && i < j < |actions| && |trace| == |actions| + 1
    && AckDropped(trace[i], actions[i]) && DeleteRefused(trace[j], actions[j])
    && forall k | i <= k <= j :: trace[k].entry.blocked
  }

  /** Blocked for deletion with nothing of the draft under way, and at odds with the host. */
  ghost predicate Adrift(s: State) { s.entry.blocked && !QuietAgrees(s) }

  /** Only the answer to the delete ends what a dropped acknowledgement leaves. */
  lemma AdriftStays(s: State, a: Action)
    requires Good(s) && Adrift(s) && (a.GotDelete? ==> s.wire.delete.None? || s.wire.delete.value.Sent?)
    ensures Adrift(Act(s, a))
  {
    if a.DoFlush? || a.DoSend? || a.DoNavigate? || a.DoClose? {
      AdriftPump(s.(entry := s.entry.(waiters := s.entry.waiters + [Background])));
      var locked := s.(shell := s.shell.(navigating := true));
      AdriftPump(locked.(entry := locked.entry.(waiters := locked.entry.waiters + [Background])));
      var closed := s.(shell := s.shell.(closing := true));
      AdriftPump(closed.(entry := closed.entry.(waiters := closed.entry.waiters + [Background])));
      hide Pump, Senders;
    } else {
      hide Pump, LastCancel, LastFinished, Senders;
    }
  }

  lemma {:induction false} AdriftPump(s: State)
    requires Adrift(s)
    ensures Adrift(Pump(s))
    decreases |s.entry.waiters|
  {
    if s.entry.waiters != [] { AdriftPump(Resumed(PopWaiter(s), s.entry.waiters[0], true)); }
  }

  lemma RefusalShows(s: State, a: Action)
    requires Adrift(s) && DeleteRefused(s, a)
    ensures !OpenAgrees(Act(s, a))
  {}

  /** A blocked entry stays so until its deletion is answered. */
  lemma BlockedStays(s: State, a: Action)
    requires Good(s) && s.entry.blocked && !s.shell.deleted && !DeleteRefused(s, a)
    ensures Act(s, a).entry.blocked || Act(s, a).shell.deleted
  {
    if a.DoFlush? || a.DoSend? || a.DoNavigate? || a.DoClose? {
      BlockedPump(s.(entry := s.entry.(waiters := s.entry.waiters + [Background])));
      var locked := s.(shell := s.shell.(navigating := true));
      BlockedPump(locked.(entry := locked.entry.(waiters := locked.entry.waiters + [Background])));
      var closed := s.(shell := s.shell.(closing := true));
      BlockedPump(closed.(entry := closed.entry.(waiters := closed.entry.waiters + [Background])));
      hide Pump, Senders;
    } else if a.GotDraft? {
      BlockedDraft(s);
    } else {
      hide Pump, LastCancel, LastFinished, Senders;
    }
  }

  lemma {:induction false} BlockedPump(s: State)
    requires s.entry.blocked
    ensures Pump(s).entry.blocked
    decreases |s.entry.waiters|
  {
    if s.wire.draft.None? && s.entry.waiters != [] { BlockedPump(Resumed(PopWaiter(s), s.entry.waiters[0], true)); }
  }

  lemma BlockedDraft(s: State)
    requires s.entry.blocked
    ensures DeliverDraft(s).entry.blocked
  {
    if s.entry.waiters != [] {
      var idle := s.(wire := s.wire.(draft := None));
      BlockedPump(Resumed(PopWaiter(idle), s.entry.waiters[0], true));
      BlockedPump(Resumed(PopWaiter(idle), s.entry.waiters[0], false));
    }
    hide Pump;
  }

  /** An acknowledgement was dropped, and its deletion has not been answered yet. */
  ghost predicate DropPending(trace: seq<State>, actions: seq<Action>, i: nat) {
    exists k: nat | k < i < |trace| && i <= |actions| ::
      AckDropped(trace[k], actions[k]) && forall m | k <= m <= i :: trace[m].entry.blocked
  }

  lemma {:induction false} LevelOrPending(trace: seq<State>, actions: seq<Action>, i: nat)
    requires Run(trace, actions) && i <= |actions|
    requires forall k, j | 0 <= k < j < i :: !RefusedAfterDrop(trace, actions, k, j)
    ensures LevelInv(trace[i]) || trace[i].shell.deleted || DropPending(trace, actions, i)
  {
    hide Act, Good, AheadInv, LevelInv, AckDropped, DeleteRefused;
    if i == 0 {
      var draft, version: nat, pending :| trace[0] == Begin(draft, version, pending);
      BeginIsGood(draft, version, pending);
    } else {
      var s, a := trace[i - 1], actions[i - 1];
      LevelOrPending(trace, actions, i - 1);
      Always(trace, actions, i - 1);
      assert trace[i - 1 + 1] == Act(s, a);
      if s.shell.deleted {
        DeletedStep(s, a);
      } else if DropPending(trace, actions, i - 1) {
        var k: nat :| k < i - 1 && AckDropped(trace[k], actions[k]) && forall m | k <= m <= i - 1 ::
            trace[m].entry.blocked;
        NotRefused(trace, actions, k, i - 1);
        BlockedStays(s, a);
        if trace[i].entry.blocked { StillPending(trace, actions, k, i); }
      } else if AckDropped(s, a) {
        DropBlocks(s, a);
        StillPending(trace, actions, i - 1, i);
      } else {
        ActLevel(s, a);
      }
    }
  }

  lemma NotRefused(trace: seq<State>, actions: seq<Action>, k: nat, j: nat)
    requires k < j < |actions| && |trace| == |actions| + 1 && AckDropped(trace[k], actions[k])
    requires (forall m | k <= m <= j :: trace[m].entry.blocked) && !RefusedAfterDrop(trace, actions, k, j)
    ensures !DeleteRefused(trace[j], actions[j])
  {}

  lemma StillPending(trace: seq<State>, actions: seq<Action>, k: nat, i: nat)
    requires k < i < |trace| && i <= |actions| && AckDropped(trace[k], actions[k])
    requires forall m | k <= m <= i :: trace[m].entry.blocked
    ensures DropPending(trace, actions, i)
  {}

  lemma DropBlocks(s: State, a: Action)
    requires AckDropped(s, a)
    ensures s.entry.blocked && Act(s, a).entry.blocked
  {
    hide LastCancel;
  }

  /** From a dropped acknowledgement to the answer to its deletion the drafts stay apart. */
  lemma {:induction false} AdriftUntil(trace: seq<State>, actions: seq<Action>, i: nat, j: nat)
    requires Run(trace, actions) && i < j <= |actions| && AckDropped(trace[i], actions[i])
    requires forall k | i <= k <= j :: trace[k].entry.blocked
    requires !trace[j].shell.deleted
    ensures Adrift(trace[j])
    decreases j
  {
    hide Act, Good, AheadInv, AckDropped, QuietAgrees;
    Always(trace, actions, j - 1);
    assert trace[j - 1 + 1] == Act(trace[j - 1], actions[j - 1]);
    if j == i + 1 {
      DroppedIs(trace[i], actions[i]);
      DroppedDisagrees(trace[i]);
    } else {
      AnswerEnds(trace[j - 1], actions[j - 1]);
      AdriftUntil(trace, actions, i, j - 1);
      AdriftStays(trace[j - 1], actions[j - 1]);
    }
  }

  /** A step that leaves the entry blocked and not deleted took no answer to the delete. */
  lemma AnswerEnds(s: State, a: Action)
    requires Good(s) && Act(s, a).entry.blocked && !Act(s, a).shell.deleted
    ensures a.GotDelete? ==> s.wire.delete.None? || s.wire.delete.value.Sent?
    ensures !s.shell.deleted
  {
    if s.shell.deleted { DeletedStep(s, a); }
    hide Pump, Flush, Senders;
  }

  /** Over a whole run the drafts agree in every quiet state of an entry that is not blocked if and
      only if no deletion that dropped the acknowledgement of a start was then refused. */
  lemma OpenAgreementIffNoRefusalAfterDrop(trace: seq<State>, actions: seq<Action>)
    requires Run(trace, actions)
    ensures (forall i | 0 <= i <= |actions| :: OpenAgrees(trace[i])) <==>
            (forall i: nat, j: nat :: !RefusedAfterDrop(trace, actions, i, j))
  {
    hide Act, Good, AheadInv, LevelInv, QuietAgrees, AckDropped, DeleteRefused;
    if forall i: nat, j: nat :: !RefusedAfterDrop(trace, actions, i, j) {
      forall i | 0 <= i <= |actions| ensures OpenAgrees(trace[i]) {
        LevelOrPending(trace, actions, i);
        Always(trace, actions, i);
        if LevelInv(trace[i]) { LevelMeans(trace[i]); } else if trace[i].shell.deleted { DeletedIsQuiet(trace[i]); }
      }
    } else {
      var i: nat, j: nat :| RefusedAfterDrop(trace, actions, i, j);
      Always(trace, actions, j);
      RefusedIsOpen(trace[j], actions[j]);
      AdriftUntil(trace, actions, i, j);
      RefusalShows(trace[j], actions[j]);
      assert trace[j + 1] == Act(trace[j], actions[j]);
      assert !OpenAgrees(trace[j + 1]);
    }
  }

  lemma DeletedIsQuiet(s: State)
    requires s.shell.deleted
    ensures QuietAgrees(s)
  {}

  lemma RefusedIsOpen(s: State, a: Action)
    requires Good(s) && DeleteRefused(s, a)
    ensures !s.shell.deleted
  {
    hide Senders;
  }

  // ---------------------------------------------------------------- requests take turns

  /** When a step issues a start, every earlier request has finished, its cancel, if one was sent, has
      been acknowledged, no call of an earlier request is out, and the draft it sends is saved. */
  lemma RequestsTakeTurns(trace: seq<State>, actions: seq<Action>, i: nat)
    requires Run(trace, actions) && i < |actions| && trace[i].ledger.starts < trace[i + 1].ledger.starts
    ensures var s := trace[i + 1];
            && s.ledger.requests != []
            && (forall k | 0 <= k < |s.ledger.requests| - 1 :: Settled(s.ledger.requests[k]))
            && s.wire.chat.None? && s.wire.cancel.None? && s.wire.draft.None? && !s.entry.dirty
  {
    hide Act, Good, AheadInv;
    Always(trace, actions, i);
    Always(trace, actions, i + 1);
    StartedIsOut(trace[i], actions[i]);
    assert trace[i + 1] == Act(trace[i], actions[i]);
    StartingMeans(trace[i + 1]);
  }

  lemma StartingMeans(s: State)
    requires Good(s) && s.wire.start.Some?
    ensures s.ledger.requests != [] && (forall k | 0 <= k < |s.ledger.requests| - 1 :: Settled(s.ledger.requests[k]))
    ensures s.wire.chat.None? && s.wire.cancel.None? && s.wire.draft.None? && !s.entry.dirty
  {
    hide Senders;
  }

  lemma {:induction false} PumpStarts(s: State)
    ensures Pump(s).ledger.starts > s.ledger.starts ==> Pump(s).wire.start.Some?
    ensures Pump(s).ledger.starts >= s.ledger.starts && (s.wire.start.Some? ==> Pump(s).wire.start.Some?)
    decreases |s.entry.waiters|
  {
    if s.wire.draft.None? && s.entry.waiters != [] && !(s.entry.dirty && !s.entry.blocked && !s.shell.deleted) {
      PumpStarts(Resumed(PopWaiter(s), s.entry.waiters[0], true));
    }
  }

  /** Only the running of flushes issues starts. */
  lemma StartedIsOut(s: State, a: Action)
    requires s.ledger.starts < Act(s, a).ledger.starts
    ensures Act(s, a).wire.start.Some?
  {
    if a.DoFlush? || a.DoSend? || a.DoNavigate? || a.DoClose? {
      var asked := Asked(s, Request(Flushing, false, false, false, false, NoTask));
      PumpStarts(s.(entry := s.entry.(waiters := s.entry.waiters + [Background])));
      PumpStarts(asked.(entry := asked.entry.(waiters := asked.entry.waiters + [Sender])));
      var locked := s.(shell := s.shell.(navigating := true));
      PumpStarts(locked.(entry := locked.entry.(waiters := locked.entry.waiters + [Background])));
      var closed := s.(shell := s.shell.(closing := true));
      PumpStarts(closed.(entry := closed.entry.(waiters := closed.entry.waiters + [Background])));
      hide Pump;
    } else if a.GotDraft? {
      DraftStarts(s);
    } else {
      hide Pump, LastCancel, LastFinished;
    }
  }

  lemma DraftStarts(s: State)
    requires s.ledger.starts < DeliverDraft(s).ledger.starts
    ensures DeliverDraft(s).wire.start.Some?
  {
    var idle := s.(wire := s.wire.(draft := None));
    if s.wire.draft.Some? {
      if s.entry.waiters != [] {
        PumpStarts(Resumed(PopWaiter(idle), s.entry.waiters[0], true));
        PumpStarts(Resumed(PopWaiter(idle), s.entry.waiters[0], false));
      }
      PumpStarts(Publish(idle.(entry := Cleaned(s.entry, s.wire.draft.value.version))));
    }
    hide Pump;
  }

  /** No call is ever issued while one of its kind is out. */
  lemma NeverTwoOfAKind(trace: seq<State>, actions: seq<Action>, i: nat)
    requires Run(trace, actions) && i <= |actions|
    ensures !trace[i].ledger.clash
  {
    Always(trace, actions, i);
    hide Act, AheadInv, Run;
  }

  // ---------------------------------------------------------------- deleted means silent

  /** What happens to a deleted workspace changes nothing any more. */
  lemma DeletedStep(s: State, a: Action)
    requires Good(s) && s.shell.deleted
    ensures var b := Act(s, a);
            && b.shell.deleted && !b.shell.listed
            && b.ledger.drafts == s.ledger.drafts && b.ledger.starts == s.ledger.starts
               && b.ledger.cancels == s.ledger.cancels
  {
    if a.DoFlush? || a.DoClose? || a.DoNavigate? {
      DeletedPump(s.(entry := s.entry.(waiters := s.entry.waiters + [Background])));
      var locked := s.(shell := s.shell.(navigating := true));
      DeletedPump(locked.(entry := locked.entry.(waiters := locked.entry.waiters + [Background])));
      var closed := s.(shell := s.shell.(closing := true));
      DeletedPump(closed.(entry := closed.entry.(waiters := closed.entry.waiters + [Background])));
      hide Pump, Senders;
    } else {
      hide Pump, LastCancel, LastFinished, Senders;
    }
  }

  lemma {:induction false} DeletedPump(s: State)
    requires s.shell.deleted && StageOf(s.entry) != Some(Flushing)
    ensures Pump(s).shell == s.shell && Pump(s).ledger == s.ledger
    decreases |s.entry.waiters|
  {
    if s.wire.draft.None? && s.entry.waiters != [] { DeletedPump(Resumed(PopWaiter(s), s.entry.waiters[0], true)); }
  }

  /** Once deleted, a workspace is never listed again, and no draft, start or cancel is issued for it. */
  lemma {:induction false} DeletedIsSilent(trace: seq<State>, actions: seq<Action>, i: nat, j: nat)
    requires Run(trace, actions) && i <= j <= |actions| && trace[i].shell.deleted
    ensures trace[j].shell.deleted && !trace[j].shell.listed
    ensures trace[j].ledger.drafts == trace[i].ledger.drafts && trace[j].ledger.starts == trace[i].ledger.starts
    ensures trace[j].ledger.cancels == trace[i].ledger.cancels
    decreases j
  {
    hide Act, AheadInv;
    if i == j {
      Always(trace, actions, i);
    } else {
      hide Good;
      DeletedIsSilent(trace, actions, i, j - 1);
      Always(trace, actions, j - 1);
      DeletedStep(trace[j - 1], actions[j - 1]);
      assert trace[j - 1 + 1] == Act(trace[j - 1], actions[j - 1]);
    }
  }

  // ---------------------------------------------------------------- a delete that fails

  function After(s: State, actions: seq<Action>): State
    decreases |actions|
  {
    if actions == [] then s else After(Act(s, actions[0]), actions[1..])
  }

  /** A message is started, the workspace is then to be deleted, the acknowledgement comes back, the
      reply is stopped, and the delete fails. */
  const FAILED_DELETE: seq<Action> := [
    DoSend(true), RunStart(true), DoDelete, GotStart, RunCancel(true, true), GotCancel, DoTick, DoCallDelete,
        RunDelete(false), GotDelete]

  /** The entry when the delete waits for the request that was just started. */
  const SENT := Entry("hi", 1, false, true, false, Some(Request(Starting, false, true, false, false, NoTask)), [])

  lemma StartThenDelete()
    ensures var s := Act(Act(Act(Begin("hi", 1, false), DoSend(true)), RunStart(true)), DoDelete);
            s == State(Host(true, "", 2, true), SENT, Wire(None, Some(Answer(Saved("", 2, true))), None, None, None),
                       Shell(Waiting, false, true, true, false), Ledger(0, 1, 0, false, [Facts(false, NoTask)]))
  {
    var s0 := Begin("hi", 1, false);
    var asked := Asked(s0, Request(Flushing, false, false, false, false, NoTask));
    var queued := asked.(entry := asked.entry.(waiters := [Sender]));
    assert [] + [Sender] == [Sender] && [Sender][1..] == [];
    assert Send(s0, true) == Pump(queued);
    var started := Resumed(PopWaiter(queued), Sender, true);
    assert Pump(queued) == Pump(started) && Pump(started) == started;
    hide Pump;
    assert asked.ledger.requests == [Facts(false, NoTask)];
  }

  lemma AckIsDropped(s: State)
    requires s == State(Host(true, "", 2, true), SENT, Wire(None, Some(Answer(Saved("", 2, true))), None, None, None),
                        Shell(Waiting, false, true, true, false), Ledger(0, 1, 0, false, [Facts(false, NoTask)]))
    ensures var t := Act(s, GotStart);
            && t.host == s.host && t.shell == s.shell && t.wire == Wire(None, None, None, Some(Sent), None)
            && t.entry == SENT.(request := Some(Request(CancelWait, true, true, false, false, Flying)))
  {
    hide LastCancel;
  }

  lemma ReplyIsStopped(s: State)
    requires s.host == Host(true, "", 2, true) && s.shell == Shell(Waiting, false, true, true, false)
    requires s.wire == Wire(None, None, None, Some(Sent), None)
    requires s.entry == SENT.(request := Some(Request(CancelWait, true, true, false, false, Flying)))
    ensures var t := Act(Act(Act(s, RunCancel(true, true)), GotCancel), DoTick);
            && t.host == Host(true, "", 2, false) && t.entry == SENT.(request := None)
            && t.wire == Wire(None, None, None, None, None) && t.shell == s.shell
  {
    hide LastCancel, LastFinished;
    var u := Act(Act(s, RunCancel(true, true)), GotCancel);
    assert u.entry == SENT.(request := Some(Request(Settling, true, true, false, false, Acknowledged)));
  }

  lemma DeleteFails(t: State)
    requires t.host.stands && t.entry == SENT.(request := None) && t.wire == Wire(None, None, None, None, None)
    requires t.shell == Shell(Waiting, false, true, true, false)
    ensures var u := Act(Act(Act(t, DoCallDelete), RunDelete(false)), GotDelete);
            u.host == t.host && u.entry == t.entry.(blocked := false) && u.wire == t.wire
                && u.shell == Shell(NoDeletion, false, true, false, false)
  {}

  /** The entry is usable again and still holds the sent text as a saved draft, at the version before
      the start, while the host has emptied the draft and moved on. */
  lemma FailedDeleteDisagrees()
    ensures var s := After(Begin("hi", 1, false), FAILED_DELETE);
            && !s.entry.blocked && !s.shell.deleted && !s.entry.dirty && s.entry.request.None?
               && s.wire == Wire(None, None, None, None, None)
            && s.entry.draft == "hi" && s.entry.version == 1 && s.host.draft == "" && s.host.version == 2
  {
    hide Act, Begin;
    AfterTen(Begin("hi", 1, false), FAILED_DELETE);
    StartThenDelete();
    var s := Act(Act(Act(Begin("hi", 1, false), DoSend(true)), RunStart(true)), DoDelete);
    AckIsDropped(s);
    ReplyIsStopped(Act(s, GotStart));
    DeleteFails(Act(Act(Act(Act(s, GotStart), RunCancel(true, true)), GotCancel), DoTick));
  }

  lemma AfterTen(s: State, a: seq<Action>)
    requires |a| == 10
    ensures After(s, a) ==
            Act(Act(Act(Act(Act(Act(Act(Act(Act(Act(s, a[0]), a[1]), a[2]), a[3]), a[4]), a[5]), a[6]), a[7]), a[8]),
                a[9])
  {
    hide Act;
    var t := After(s, a);
    assert t == After(Act(s, a[0]), a[1..]);
    AfterSkip(Act(s, a[0]), a, 1);
    AfterSkip(Act(Act(s, a[0]), a[1]), a, 2);
    var u := Act(Act(Act(s, a[0]), a[1]), a[2]);
    AfterSkip(u, a, 3);
    AfterSkip(Act(u, a[3]), a, 4);
    var v := Act(Act(u, a[3]), a[4]);
    AfterSkip(v, a, 5);
    AfterSkip(Act(v, a[5]), a, 6);
    var w := Act(Act(v, a[5]), a[6]);
    AfterSkip(w, a, 7);
    AfterSkip(Act(w, a[7]), a, 8);
    AfterSkip(Act(Act(w, a[7]), a[8]), a, 9);
    assert a[10..] == [];
  }

  lemma AfterSkip(s: State, a: seq<Action>, k: nat)
    requires k < |a|
    ensures After(s, a[k..]) == After(Act(s, a[k]), a[k + 1..])
  {
    assert a[k..][1..] == a[k + 1..];
  }
}
