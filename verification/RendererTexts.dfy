/** What becomes of a text that is typed: the entry holds it, the next draft call carries it, and once
    that call is answered the host holds it too. */
module RendererTexts {
  import opened Wrappers
  import opened Renderer
  import opened RendererLaws
  import opened RendererDrafts
  import opened RendererRuns

  // ---------------------------------------------------------------- one edit

  /** Nothing stands in the way of typing, and the text is not too long. */
  ghost predicate MayEdit(s: State, text: string) {
    && !s.entry.blocked && !s.shell.deleted && !s.shell.navigating && !s.shell.closing
    && (s.entry.request.None? || s.entry.request.value.acked) && |text| <= 32000
  }

  /** An accepted text is what the entry holds; another text than before takes the next version and is
      still to be saved. In every other case the state is as it was. */
  lemma EditExactly(s: State, text: string)
    ensures var b := Act(s, DoEdit(text));
            && (MayEdit(s, text) ==>
                  && b.entry.draft == text
                  && b.entry.version == s.entry.version + (if text == s.entry.draft then 0 else 1)
                  && b.entry.dirty == (s.entry.dirty || text != s.entry.draft)
                  && b == s.(entry := s.entry.(draft := text, version := b.entry.version, dirty := b.entry.dirty)))
            && (!MayEdit(s, text) ==> b == s)
  {}

  // ---------------------------------------------------------------- what a step leaves of the text

  /** An edit, or any step of starting a message. */
  predicate EditOrStart(a: Action) { a.DoEdit? || a.RunStart? || a.GotStart? }

  predicate Matched(c: DraftCall) {
    c.reply.Answer? && c.reply.value.version == c.version && c.reply.value.draft == c.draft
  }

  /** While it is to be saved the entry holds the text, at `v` or later, and so does every call of that
      version; an answer that agrees with its call came from a host that holds it. */
  ghost predicate Kept(s: State, text: string, v: nat) {
    && (s.entry.dirty ==> s.entry.draft == text && s.entry.version >= v)
    && (s.wire.draft.Some? && s.wire.draft.value.version >= v ==>
          && s.wire.draft.value.draft == text
          && (Matched(s.wire.draft.value) ==> s.host.draft == text && s.host.version == s.wire.draft.value.version))
  }

  lemma EditKeeps(s: State, text: string)
    requires Good(s) && MayEdit(s, text) && text != s.entry.draft
    ensures Kept(Act(s, DoEdit(text)), text, s.entry.version + 1)
  {
    hide Senders, DeletionInv, LedgerInv;
  }

  lemma SameTextKept(a: State, b: State, text: string, v: nat)
    requires Kept(a, text, v) && SameText(a, b)
    ensures Kept(b, text, v)
  {}

  /** The drafts, and the draft call, are as they were. */
  ghost predicate SameDraft(a: State, b: State) {
    && b.host.draft == a.host.draft && b.host.version == a.host.version && b.wire.draft == a.wire.draft
    && b.entry.draft == a.entry.draft && b.entry.version == a.entry.version && b.entry.dirty == a.entry.dirty
  }

  predicate Still(a: Action) {
    || a.DoResume? || a.DoCancel? || a.DoTick? || a.DoOutdate? || a.DoDelete? || a.DoCallDelete? || a.DoArrive?
    || a.DoReopen? || a.RunChat? || a.RunCancel? || a.RunDelete? || a.GotDelete?
  }

  lemma StillStep(s: State, a: Action)
    requires Still(a)
    ensures SameDraft(s, Act(s, a)) && Act(s, a).ledger.drafts == s.ledger.drafts
    ensures a.DoDelete? || a.GotDelete? || Act(s, a).entry.blocked == s.entry.blocked
  {
    if a.DoCancel? || a.DoDelete? {
      CancelEntryStill(s);
      CancelEntryStill(s.(shell := s.shell.(navigating := true, deletion := Waiting),
                          entry := s.entry.(blocked := true)));
      hide CancelEntry;
    } else {
      hide LastCancel, LastFinished, CancelEntry;
    }
  }

  lemma CancelEntryStill(s: State)
    ensures var b := CancelEntry(s);
            SameDraft(s, b) && b.ledger.drafts == s.ledger.drafts && b.entry.blocked == s.entry.blocked
  {
    hide LastCancel;
  }

  /** An answer to a chat or a cancel call brings a workspace back: the entry takes its draft only when
      it has none to save, and never an older version. */
  ghost predicate MergesDraft(a: State, b: State, saved: Option<Saved>) {
    && b.host == a.host && b.wire.draft == a.wire.draft && b.wire.start == a.wire.start
       && b.entry.dirty == a.entry.dirty
    && (if saved.None? then b.entry.draft == a.entry.draft && b.entry.version == a.entry.version
        else
          && b.entry.version in {a.entry.version, saved.value.version} && b.entry.version >= a.entry.version
          && (b.entry.draft == a.entry.draft
              || (!a.entry.dirty && saved.value.version >= a.entry.version && b.entry.draft == saved.value.draft)))
  }

  lemma ChatMerges(s: State)
    ensures MergesDraft(s, DeliverChat(s), ChatAnswer(s.wire.chat)) && DeliverChat(s).ledger.drafts == s.ledger.drafts
  {}

  lemma CancelMerges(s: State)
    ensures MergesDraft(s, DeliverCancel(s), Answered(s.wire.cancel))
            && DeliverCancel(s).ledger.drafts == s.ledger.drafts
  {
    hide LastCancel;
  }

  /** The state from which a flush, a sending, a navigation or a closing runs the flushes. */
  function Prepared(s: State, a: Action): State
    requires a.DoFlush? || a.DoSend? || a.DoNavigate? || a.DoClose?
  {
    var asked := Asked(s, Request(Flushing, false, false, false, false, NoTask));
    var locked, closed := s.(shell := s.shell.(navigating := true)), s.(shell := s.shell.(closing := true));
    if a.DoFlush? then s.(entry := s.entry.(waiters := s.entry.waiters + [Background]))
    else if a.DoSend? then
      if Sendable(s, a.ready) then asked.(entry := asked.entry.(waiters := asked.entry.waiters + [Sender])) else s
    else if a.DoNavigate? then
      if s.shell.navigating || s.shell.closing then s
          else locked.(entry := locked.entry.(waiters := locked.entry.waiters + [Background]))
    else closed.(entry := closed.entry.(waiters := closed.entry.waiters + [Background]))
  }

  lemma PumpingText(s: State, a: Action)
    requires Good(s) && (a.DoFlush? || a.DoSend? || a.DoNavigate? || a.DoClose?)
    ensures var m := Prepared(s, a);
            SameDraft(s, m) && m.ledger.drafts == s.ledger.drafts && Act(s, a) == Pump(m) && SameText(m, Pump(m))
            && m.wire.start == s.wire.start
  {
    PumpText(Prepared(s, a));
    Idle(s);
    hide Pump, Shape;
  }

  lemma Idle(s: State)
    ensures s.entry.waiters == [] || s.wire.draft.Some? ==> Pump(s) == s
  {}

  /** How the answer to a draft call is taken, before the flushes run on. */
  function AnsweredDraft(s: State): (r: (State, bool, bool))
    requires s.wire.draft.Some?
  {
    var call := s.wire.draft.value;
    var idle := s.(wire := s.wire.(draft := None));
    if call.reply.Refusal? then (idle, false, false)
    else if s.entry.blocked || s.shell.deleted then (idle, false, true)
    else if !Matched(call) then (idle, false, false)
    else (Publish(idle.(entry := s.entry.(dirty := s.entry.dirty && s.entry.version != call.version))), true, true)
  }

  lemma DraftStep(s: State)
    requires Good(s) && s.wire.draft.Some? && !s.wire.draft.value.reply.Sent?
    ensures var (m, clean, succeeded) := AnsweredDraft(s);
            && SameText(m, DeliverDraft(s))
            && DeliverDraft(s) == if clean then Pump(m) else FlushEnded(m, succeeded)
  {
    var (m, clean, succeeded) := AnsweredDraft(s);
    if clean { PumpText(m); } else { FlushEndedText(m, succeeded); }
    hide Pump, FlushEnded, Shape;
  }

  // ---------------------------------------------------------------- the text is kept, in every run

  lemma KeptWhenStill(a: State, b: State, text: string, v: nat)
    requires Kept(a, text, v) && SameDraft(a, b)
    ensures Kept(b, text, v)
  {}

  lemma KeptWhenMerged(a: State, b: State, saved: Option<Saved>, text: string, v: nat)
    requires Kept(a, text, v) && MergesDraft(a, b, saved)
    ensures Kept(b, text, v)
  {}

  lemma KeptWhenExecuted(s: State, accepts: bool, writes: bool, text: string, v: nat)
    requires Kept(s, text, v)
    ensures Kept(ExecuteDraft(s, accepts, writes), text, v)
  {}

  lemma KeptStep(s: State, a: Action, text: string, v: nat)
    requires Good(s) && Kept(s, text, v) && !EditOrStart(a)
    ensures Kept(Act(s, a), text, v)
  {
    hide Good, Kept, SameDraft, SameText, MergesDraft;
    if Still(a) {
      StillStep(s, a);
      KeptWhenStill(s, Act(s, a), text, v);
    } else if a.GotChat? {
      ChatMerges(s);
      KeptWhenMerged(s, DeliverChat(s), ChatAnswer(s.wire.chat), text, v);
    } else if a.GotCancel? {
      CancelMerges(s);
      KeptWhenMerged(s, DeliverCancel(s), Answered(s.wire.cancel), text, v);
    } else if a.RunDraft? {
      KeptWhenExecuted(s, a.accepts, a.writes, text, v);
    } else if a.GotDraft? {
      if s.wire.draft.Some? && !s.wire.draft.value.reply.Sent? {
        DraftStep(s);
        KeptAnswered(s, text, v);
        SameTextKept(AnsweredDraft(s).0, DeliverDraft(s), text, v);
      }
    } else {
      PumpingText(s, a);
      KeptWhenStill(s, Prepared(s, a), text, v);
      SameTextKept(Prepared(s, a), Act(s, a), text, v);
    }
    hide DeliverDraft, DeliverChat, DeliverCancel, ExecuteDraft, Pump, Prepared, AnsweredDraft;
  }

  lemma KeptAnswered(s: State, text: string, v: nat)
    requires Kept(s, text, v) && s.wire.draft.Some?
    ensures Kept(AnsweredDraft(s).0, text, v)
  {}

  /** No edit, and no step of starting a message, at `i` and before `j`. */
  ghost predicate Undisturbed(actions: seq<Action>, i: nat, j: nat) {
    forall k | i <= k < j && k < |actions| :: !EditOrStart(actions[k])
  }

  /** Moment `i` accepts a text other than the one that was there. */
  ghost predicate Types(trace: seq<State>, actions: seq<Action>, i: nat, text: string) {
    && i < |actions| < |trace| && actions[i] == DoEdit(text)
    && MayEdit(trace[i], text) && text != trace[i].entry.draft
  }

  lemma {:induction false} KeptSince(trace: seq<State>, actions: seq<Action>, i: nat, j: nat, text: string)
    requires Run(trace, actions) && Types(trace, actions, i, text) && i < j <= |actions|
             && Undisturbed(actions, i + 1, j)
    ensures Kept(trace[j], text, trace[i].entry.version + 1)
    decreases j
  {
    hide Act, Good, AheadInv, Kept, MayEdit, EditOrStart;
    Always(trace, actions, j - 1);
    assert trace[j - 1 + 1] == Act(trace[j - 1], actions[j - 1]);
    if j == i + 1 {
      EditKeeps(trace[i], text);
    } else {
      KeptSince(trace, actions, i, j - 1, text);
      KeptStep(trace[j - 1], actions[j - 1], text, trace[i].entry.version + 1);
    }
  }

  lemma {:induction false} PumpIssues(s: State)
    ensures var b := Pump(s);
            b.ledger.drafts != s.ledger.drafts ==>
              b.ledger.drafts == s.ledger.drafts + 1 && b.entry.dirty
              && b.wire.draft == Some(DraftCall(b.entry.draft, b.entry.version, Sent))
    decreases |s.entry.waiters|
  {
    if s.wire.draft.None? && s.entry.waiters != [] && !(s.entry.dirty && !s.entry.blocked && !s.shell.deleted) {
      PumpIssues(Resumed(PopWaiter(s), s.entry.waiters[0], true));
    }
  }

  /** Every draft call carries what the entry holds, and is made only while that is to be saved. */
  lemma IssuedCarries(s: State, a: Action)
    requires Good(s) && Act(s, a).ledger.drafts != s.ledger.drafts
    ensures var b := Act(s, a); b.entry.dirty && b.wire.draft == Some(DraftCall(b.entry.draft, b.entry.version, Sent))
  {
    hide Good, SameText, SameDraft, MergesDraft;
    if Still(a) {
      StillStep(s, a);
    } else if a.GotChat? {
      ChatMerges(s);
    } else if a.GotCancel? {
      CancelMerges(s);
    } else if a.GotDraft? {
      if s.wire.draft.Some? && !s.wire.draft.value.reply.Sent? {
        DraftStep(s);
        var (m, clean, succeeded) := AnsweredDraft(s);
        assert m.ledger == s.ledger;
        PumpIssues(m);
        if m.entry.waiters != [] { PumpIssues(Resumed(PopWaiter(m), m.entry.waiters[0], succeeded)); }
        hide Pump;
      }
    } else if a.DoFlush? || a.DoSend? || a.DoNavigate? || a.DoClose? {
      PumpingText(s, a);
      PumpIssues(Prepared(s, a));
    }
    hide DeliverDraft, DeliverChat, DeliverCancel, Pump, Prepared, AnsweredDraft;
  }

  /** In every run a typed text is what each draft call carries, and what the entry holds, until it is
      saved: the entry turns clean only with the answer of a host that holds the text at the entry's
      version. */
  lemma TypedTextIsSaved(trace: seq<State>, actions: seq<Action>, i: nat, j: nat, text: string)
    requires Run(trace, actions) && Types(trace, actions, i, text) && i < j < |actions|
             && Undisturbed(actions, i + 1, j + 1)
    ensures trace[j].entry.dirty ==> trace[j].entry.draft == text && trace[i].entry.version < trace[j].entry.version
    ensures trace[j].ledger.drafts != trace[j + 1].ledger.drafts ==>
              trace[j + 1].wire.draft == Some(DraftCall(text, trace[j + 1].entry.version, Sent))
    ensures trace[j].entry.dirty && !trace[j + 1].entry.dirty ==>
              && actions[j] == GotDraft
              && trace[j + 1].host.draft == text && trace[j + 1].host.version == trace[j + 1].entry.version
              && trace[j + 1].entry.draft == text
  {
    hide Act, Good, AheadInv, EditOrStart, MayEdit;
    var s, b := trace[j], trace[j + 1];
    assert b == Act(s, actions[j]);
    Always(trace, actions, j);
    KeptSince(trace, actions, i, j, text);
    KeptSince(trace, actions, i, j + 1, text);
    if b.ledger.drafts != s.ledger.drafts { IssuedCarries(s, actions[j]); }
    if s.entry.dirty && !b.entry.dirty { Cleans(s, actions[j]); }
  }

  /** Nothing but the answer to its own call makes an entry clean, or a start that takes its text. */
  lemma Cleans(s: State, a: Action)
    requires Good(s) && s.entry.dirty && !Act(s, a).entry.dirty && !EditOrStart(a)
    ensures a == GotDraft && s.wire.draft.Some? && Matched(s.wire.draft.value)
            && s.wire.draft.value.version == s.entry.version
    ensures var b := Act(s, a);
            b.host == s.host && b.entry.draft == s.entry.draft && b.entry.version == s.entry.version
  {
    if Still(a) {
      StillStep(s, a);
    } else if a.GotChat? {
      ChatMerges(s);
    } else if a.GotCancel? {
      CancelMerges(s);
    } else if a.GotDraft? {
      if s.wire.draft.Some? && !s.wire.draft.value.reply.Sent? { DraftStep(s); }
    } else if !a.RunDraft? {
      PumpingText(s, a);
    }
    hide Good, DeliverDraft, DeliverChat, DeliverCancel, Pump, Prepared;
  }

  // ---------------------------------------------------------------- while no acknowledgement was dropped

  /** The entry holds the text at exactly this version, and no start was answered since. */
  ghost predicate Held(s: State, text: string, v: nat) {
    s.entry.draft == text && s.entry.version == v && Answered(s.wire.start).None?
  }

  /** No acknowledgement of a start came back to a blocked entry before moment `j`. */
  ghost predicate NoneDropped(trace: seq<State>, actions: seq<Action>, j: nat) {
    forall k | 0 <= k < j && k < |actions| && k < |trace| :: !AckDropped(trace[k], actions[k])
  }

  /** What comes back is no newer than the entry, and of the same version only with the same draft. */
  lemma HeldWhenMerged(a: State, b: State, saved: Option<Saved>, text: string, v: nat)
    requires AheadInv(a) && LevelInv(a) && Held(a, text, v) && MergesDraft(a, b, saved)
    requires saved.Some? ==> saved.value.version <= a.host.version && AnswerLevel(a.host, saved)
    ensures Held(b, text, v)
  {}

  lemma ExecutedEntry(s: State, accepts: bool, writes: bool)
    ensures var b := ExecuteDraft(s, accepts, writes); b.entry == s.entry && b.wire.start == s.wire.start
  {}

  lemma StillStart(s: State, a: Action)
    requires Still(a)
    ensures Act(s, a).wire.start == s.wire.start
  {
    hide LastCancel, LastFinished;
  }

  lemma HeldWhenAnswered(s: State, text: string, v: nat)
    requires Held(s, text, v) && s.wire.draft.Some?
    ensures Held(AnsweredDraft(s).0, text, v)
  {}

  lemma HeldStep(s: State, a: Action, text: string, v: nat)
    requires Good(s) && AheadInv(s) && LevelInv(s) && Held(s, text, v) && !EditOrStart(a)
    ensures Held(Act(s, a), text, v)
  {
    hide Good, SameText, SameDraft, MergesDraft;
    if Still(a) {
      StillStep(s, a);
      StillStart(s, a);
      HeldWhenStill(s, Act(s, a), text, v);
    } else if a.GotChat? {
      ChatMerges(s);
      HeldWhenMerged(s, DeliverChat(s), ChatAnswer(s.wire.chat), text, v);
    } else if a.GotCancel? {
      CancelMerges(s);
      HeldWhenMerged(s, DeliverCancel(s), Answered(s.wire.cancel), text, v);
    } else if a.RunDraft? {
      ExecutedEntry(s, a.accepts, a.writes);
    } else if a.GotDraft? {
      if s.wire.draft.Some? && !s.wire.draft.value.reply.Sent? {
        DraftStep(s);
        HeldWhenAnswered(s, text, v);
        HeldWhenPumped(AnsweredDraft(s).0, DeliverDraft(s), text, v);
      }
    } else {
      PumpingText(s, a);
      HeldWhenStill(s, Prepared(s, a), text, v);
      HeldWhenPumped(Prepared(s, a), Act(s, a), text, v);
    }
    hide DeliverDraft, DeliverChat, DeliverCancel, ExecuteDraft, Pump, Prepared, AnsweredDraft, LevelInv, AheadInv;
  }

  lemma HeldWhenStill(a: State, b: State, text: string, v: nat)
    requires Held(a, text, v) && SameDraft(a, b) && b.wire.start == a.wire.start
    ensures Held(b, text, v)
  {}

  lemma HeldWhenPumped(a: State, b: State, text: string, v: nat)
    requires Held(a, text, v) && SameText(a, b)
    ensures Held(b, text, v)
  {}

  lemma EditHolds(s: State, text: string)
    requires Good(s) && MayEdit(s, text) && text != s.entry.draft
    ensures Held(Act(s, DoEdit(text)), text, s.entry.version + 1)
  {
    hide Senders, DeletionInv, LedgerInv, FlushInv;
  }

  /** Until it is edited again or started, the entry holds the typed text at the version it took, and
      once the entry is clean the host holds the very same. */
  lemma {:induction false} TypedTextIsHeld(trace: seq<State>, actions: seq<Action>, i: nat, j: nat, text: string)
    requires Run(trace, actions) && Types(trace, actions, i, text) && i < j <= |actions|
             && Undisturbed(actions, i + 1, j)
    requires NoneDropped(trace, actions, j)
    ensures Held(trace[j], text, trace[i].entry.version + 1)
    ensures !trace[j].entry.dirty ==> trace[j].host.draft == text && trace[j].host.version == trace[i].entry.version + 1
    decreases j
  {
    hide Act, Good, AheadInv, LevelInv, Held, MayEdit, EditOrStart, AckDropped;
    Always(trace, actions, j - 1);
    Always(trace, actions, j);
    LevelUnlessDropped(trace, actions, j - 1);
    LevelUnlessDropped(trace, actions, j);
    assert trace[j - 1 + 1] == Act(trace[j - 1], actions[j - 1]);
    if j == i + 1 {
      EditHolds(trace[i], text);
    } else {
      TypedTextIsHeld(trace, actions, i, j - 1, text);
      HeldStep(trace[j - 1], actions[j - 1], text, trace[i].entry.version + 1);
    }
    HeldMeans(trace[j], text, trace[i].entry.version + 1);
  }

  lemma HeldMeans(s: State, text: string, v: nat)
    requires AheadInv(s) && LevelInv(s) && Held(s, text, v)
    ensures s.entry.draft == text && s.entry.version == v
    ensures !s.entry.dirty ==> s.host.draft == text && s.host.version == v
  {}

  /** The next draft call carries the typed text at the version it took. */
  lemma NextCallCarries(trace: seq<State>, actions: seq<Action>, i: nat, j: nat, text: string)
    requires Run(trace, actions) && Types(trace, actions, i, text) && i < j < |actions|
             && Undisturbed(actions, i + 1, j + 1)
    requires NoneDropped(trace, actions, j + 1) && trace[j].ledger.drafts != trace[j + 1].ledger.drafts
    ensures trace[j + 1].wire.draft == Some(DraftCall(text, trace[i].entry.version + 1, Sent))
  {
    hide Act, Good, AheadInv, MayEdit, EditOrStart, AckDropped;
    Always(trace, actions, j);
    assert trace[j + 1] == Act(trace[j], actions[j]);
    IssuedCarries(trace[j], actions[j]);
    TypedTextIsHeld(trace, actions, i, j + 1, text);
  }

  // ---------------------------------------------------------------- the call lands

  lemma PumpWaits(s: State)
    requires s.wire.draft.Some?
    ensures Pump(s) == s
  {}

  /** A draft call stays out as it is until it is executed or its answer is taken. */
  lemma CallStays(s: State, a: Action)
    requires Good(s) && s.wire.draft.Some? && s.wire.draft.value.reply.Answer? && a != GotDraft && !EditOrStart(a)
    ensures Act(s, a).wire.draft == s.wire.draft
  {
    hide Good, SameText, MergesDraft;
    if Still(a) {
      StillStep(s, a);
    } else if a.GotChat? {
      ChatMerges(s);
      MergedCall(s, DeliverChat(s), ChatAnswer(s.wire.chat));
    } else if a.GotCancel? {
      CancelMerges(s);
      MergedCall(s, DeliverCancel(s), Answered(s.wire.cancel));
    } else if !a.RunDraft? {
      PumpingText(s, a);
      PumpWaits(Prepared(s, a));
    }
    hide DeliverChat, DeliverCancel, Pump, Prepared;
  }

  lemma MergedCall(a: State, b: State, saved: Option<Saved>)
    requires MergesDraft(a, b, saved)
    ensures b.wire.draft == a.wire.draft
  {}

  lemma {:induction false} AnswerWaits(trace: seq<State>, actions: seq<Action>, j: nat, k: nat)
    requires Run(trace, actions) && j <= k <= |actions| && Undisturbed(actions, j, k)
    requires trace[j].wire.draft.Some? && trace[j].wire.draft.value.reply.Answer?
    requires forall m | j <= m < k :: actions[m] != GotDraft
    ensures trace[k].wire.draft == trace[j].wire.draft
    decreases k
  {
    hide Act, Good, AheadInv, EditOrStart;
    if j < k {
      AnswerWaits(trace, actions, j, k - 1);
      Always(trace, actions, k - 1);
      assert trace[k - 1 + 1] == Act(trace[k - 1], actions[k - 1]);
      CallStays(trace[k - 1], actions[k - 1]);
    }
  }

  /** A host that accepts a call takes its draft, unless it holds that version already. */
  lemma AcceptedCall(s: State, text: string, v: nat, writes: bool)
    requires Good(s) && AheadInv(s) && LevelInv(s) && s.host.stands && s.wire.draft == Some(DraftCall(text, v, Sent))
    ensures var b := Act(s, RunDraft(true, writes));
            && b.host.draft == text && b.host.version == v && b.entry == s.entry
            && b.wire.draft.Some? && b.wire.draft.value.reply.Answer? && Matched(b.wire.draft.value)
            && b.wire.draft.value.draft == text && b.wire.draft.value.version == v
  {
    hide Good;
  }

  /** Its answer makes an open entry clean. */
  lemma AnswerLands(s: State, text: string, v: nat)
    requires Good(s) && AheadInv(s) && LevelInv(s) && Held(s, text, v) && !s.entry.blocked && !s.shell.deleted
    requires s.wire.draft.Some? && Matched(s.wire.draft.value) && s.wire.draft.value.version == v
    ensures !Act(s, GotDraft).entry.dirty
  {
    DraftStep(s);
    hide Good, DeliverDraft, LevelInv, AheadInv;
  }

  /** Typed, carried by a call that the host accepts and whose answer comes back to an open entry, with
      no other edit and no start on the way: the host holds the text, and the entry is clean. */
  lemma TypedTextLands(trace: seq<State>, actions: seq<Action>, i: nat, j: nat, k: nat, text: string, writes: bool)
    requires Run(trace, actions) && Types(trace, actions, i, text) && i < j < k < |actions|
    requires Undisturbed(actions, i + 1, k + 1) && NoneDropped(trace, actions, k + 1)
    requires actions[j] == RunDraft(true, writes) && trace[j].host.stands
    requires trace[j].wire.draft == Some(DraftCall(text, trace[i].entry.version + 1, Sent))
    requires actions[k] == GotDraft && forall m | j < m < k :: actions[m] != GotDraft
    requires !trace[k].entry.blocked && !trace[k].shell.deleted
    ensures var s := trace[k + 1];
            && !s.entry.dirty && s.entry.draft == text && s.entry.version == trace[i].entry.version + 1
            && s.host.draft == text && s.host.version == trace[i].entry.version + 1
  {
    hide Act, Good, AheadInv, LevelInv, MayEdit, EditOrStart, AckDropped, Held;
    var v := trace[i].entry.version + 1;
    Always(trace, actions, j);
    LevelUnlessDropped(trace, actions, j);
    assert trace[j + 1] == Act(trace[j], actions[j]);
    AcceptedCall(trace[j], text, v, writes);
    AnswerWaits(trace, actions, j + 1, k);
    Always(trace, actions, k);
    LevelUnlessDropped(trace, actions, k);
    TypedTextIsHeld(trace, actions, i, k, text);
    assert trace[k + 1] == Act(trace[k], actions[k]);
    AnswerLands(trace[k], text, v);
    TypedTextIsHeld(trace, actions, i, k + 1, text);
    Always(trace, actions, k + 1);
    LevelUnlessDropped(trace, actions, k + 1);
    HeldMeans(trace[k + 1], text, v);
  }

  /** With nothing under way a flush of an open entry makes the call at once. */
  lemma FlushCalls(s: State)
    requires Good(s) && s.entry.dirty && !s.entry.blocked && !s.shell.deleted && s.wire.draft.None?
    ensures Act(s, DoFlush).wire.draft == Some(DraftCall(s.entry.draft, s.entry.version, Sent))
    ensures Act(s, DoFlush).ledger.drafts == s.ledger.drafts + 1
  {
    hide Shape;
  }
}
