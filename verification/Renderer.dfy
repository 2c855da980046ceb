/** One workspace as the window sees it and as the host keeps it. Every transition runs from one
    await to the next; user actions, host executions and deliveries interleave freely. */
module Renderer {
  import opened Wrappers

  // ---------------------------------------------------------------- the host row and the wire

  /** The row; `version` moves with every accepted draft and every started message. */
  datatype Host = Host(stands: bool, draft: string, version: nat, pending: bool)

  /** The part of a returned workspace that matters here. */
  datatype Saved = Saved(draft: string, version: nat, pending: bool)

  /** A call that is out: not yet executed, or its answer is on the way. */
  datatype Reply<T> = Sent | Answer(value: T) | Refusal

  datatype DraftCall = DraftCall(draft: string, version: nat, reply: Reply<Saved>)

  datatype ChatKind = Completing | Recovering

  datatype Chat = Chat(kind: ChatKind, reply: Reply<Saved>)

  // ---------------------------------------------------------------- the window's entry

  datatype Stage =
    | Flushing | Starting | Refreshing | Finishing | Draining | CancelWait | Settling | CancelEnd | Over

  datatype Task = NoTask | Flying | Acknowledged | CancelFailed

  datatype Request = Request(stage: Stage, acked: bool, cancelled: bool, stale: bool, resumed: bool, task: Task)

  /** Its work is done; only cancelling may still be under way. */
  predicate Finished(q: Request) { q.stage.CancelEnd? || q.stage.Over? }

  /** Who waits for a flush. */
  datatype Waiter = Background | Sender

  datatype Deletion = NoDeletion | Waiting | Called

  datatype Entry = Entry(
    draft: string, version: nat, dirty: bool, blocked: bool, knownPending: bool,
    request: Option<Request>, waiters: seq<Waiter>)

  /** At most one call of a kind is out. */
  datatype Wire = Wire(
    draft: Option<DraftCall>, start: Option<Reply<Saved>>, chat: Option<Chat>,
    cancel: Option<Reply<Saved>>, delete: Option<Reply<()>>)

  datatype Shell = Shell(deletion: Deletion, deleted: bool, listed: bool, navigating: bool, closing: bool)

  /** What became of each request made so far, as its calls and answers show. */
  datatype Facts = Facts(finished: bool, cancel: Task)

  /** How many draft, start and cancel calls were issued, and whether ever one while another of its
      kind was out. */
  datatype Ledger = Ledger(drafts: nat, starts: nat, cancels: nat, clash: bool, requests: seq<Facts>)

  datatype State = State(host: Host, entry: Entry, wire: Wire, shell: Shell, ledger: Ledger)

  function Begin(draft: string, version: nat, pending: bool): State {
    State(Host(true, draft, version, pending), Entry(draft, version, false, false, pending, None, []),
          Wire(None, None, None, None, None), Shell(NoDeletion, false, true, false, false), Ledger(0, 0, 0, false, []))
  }

  // ---------------------------------------------------------------- issuing calls

  function IssueDraft(s: State): State {
    s.(wire := s.wire.(draft := Some(DraftCall(s.entry.draft, s.entry.version, Sent))),
       ledger := s.ledger.(drafts := s.ledger.drafts + 1, clash := s.ledger.clash || s.wire.draft.Some?))
  }

  function IssueStart(s: State): State {
    s.(wire := s.wire.(start := Some(Sent)),
       ledger := s.ledger.(starts := s.ledger.starts + 1, clash := s.ledger.clash || s.wire.start.Some?))
  }

  function IssueChat(s: State, kind: ChatKind): State {
    s.(wire := s.wire.(chat := Some(Chat(kind, Sent))),
       ledger := s.ledger.(clash := s.ledger.clash || s.wire.chat.Some?))
  }

  function IssueCancel(s: State): State {
    s.(wire := s.wire.(cancel := Some(Sent)),
       ledger := s.ledger.(cancels := s.ledger.cancels + 1, clash := s.ledger.clash || s.wire.cancel.Some?,
                           requests := LastCancel(s.ledger.requests, Flying)))
  }

  function LastCancel(requests: seq<Facts>, task: Task): seq<Facts> {
    if requests == [] then [] else requests[|requests| - 1 := requests[|requests| - 1].(cancel := task)]
  }

  function LastFinished(requests: seq<Facts>): seq<Facts> {
    if requests == [] then [] else requests[|requests| - 1 := requests[|requests| - 1].(finished := true)]
  }

  function SetRequest(s: State, q: Option<Request>): State { s.(entry := s.entry.(request := q)) }

  function Publish(s: State): State { if s.shell.deleted then s else s.(shell := s.shell.(listed := true)) }

  // ---------------------------------------------------------------- applying what comes back

  /** A returned workspace: only an equal or newer version replaces a clean draft. */
  function Merged(e: Entry, saved: Saved): Entry {
    e.(draft := if !e.dirty && saved.version >= e.version then saved.draft else e.draft,
       version := if saved.version > e.version then saved.version else e.version,
       knownPending := saved.pending)
  }

  function ApplyMessages(s: State, saved: Saved): State {
    if s.entry.blocked || s.shell.deleted then s else Publish(s.(entry := Merged(s.entry, saved)))
  }

  // ---------------------------------------------------------------- flushing the draft

  /** A flush that waited is through: a sender goes on to start its message, or gives up. */
  function Resumed(s: State, w: Waiter, succeeded: bool): State {
    if w.Background? || s.entry.request.None? || !s.entry.request.value.stage.Flushing? then s
    else
      var q := s.entry.request.value;
      if !succeeded || q.cancelled || s.entry.blocked then SetRequest(s, Some(q.(stage := Settling)))
      else IssueStart(SetRequest(s, Some(q.(stage := Starting))))
  }

  function PopWaiter(s: State): State
    requires s.entry.waiters != []
  {
    s.(entry := s.entry.(waiters := s.entry.waiters[1..]))
  }

  /** Run the chained flushes as far as they go without waiting. */
  function Pump(s: State): State
    decreases |s.entry.waiters|
  {
    if s.wire.draft.Some? || s.entry.waiters == [] then s
    else if s.entry.dirty && !s.entry.blocked && !s.shell.deleted then IssueDraft(s)
    else Pump(Resumed(PopWaiter(s), s.entry.waiters[0], true))
  }

  function Flush(s: State, w: Waiter): State { Pump(s.(entry := s.entry.(waiters := s.entry.waiters + [w]))) }

  /** The flush at the head is over; the next one has its turn. */
  function FlushEnded(s: State, succeeded: bool): State {
    if s.entry.waiters == [] then s else Pump(Resumed(PopWaiter(s), s.entry.waiters[0], succeeded))
  }

  function Cleaned(e: Entry, version: nat): Entry { e.(dirty := e.dirty && e.version != version) }

  function DeliverDraft(s: State): State {
    if s.wire.draft.None? || s.wire.draft.value.reply.Sent? then s
    else
      var call := s.wire.draft.value;
      var idle := s.(wire := s.wire.(draft := None));
      if call.reply.Refusal? then FlushEnded(idle, false)
      else if s.entry.blocked || s.shell.deleted then FlushEnded(idle, true)
      else if call.reply.value.version != call.version || call.reply.value.draft != call.draft
          then FlushEnded(idle, false)
      else Pump(Publish(idle.(entry := Cleaned(s.entry, call.version))))
  }

  // ---------------------------------------------------------------- requests

  predicate Editable(s: State) {
    && !s.entry.blocked && !s.shell.deleted && !s.shell.navigating && !s.shell.closing
    && !(s.entry.request.Some? && !s.entry.request.value.acked)
  }

  function Edit(s: State, draft: string): State {
    if !Editable(s) || |draft| > 32_000 || draft == s.entry.draft then s
    else s.(entry := s.entry.(draft := draft, version := s.entry.version + 1, dirty := true))
  }

  function Asked(s: State, q: Request): State {
    SetRequest(s, Some(q)).(ledger := s.ledger.(requests := s.ledger.requests + [Facts(false, NoTask)]))
  }

  predicate Sendable(s: State, ready: bool) {
    && !s.entry.blocked && !s.shell.deleted && s.entry.request.None? && !s.shell.navigating && !s.shell.closing
    && !s.entry.knownPending && ready
  }

  /** `ready` stands for the checks of connection, model and text. */
  function Send(s: State, ready: bool): State {
    if !Sendable(s, ready) then s else Flush(Asked(s, Request(Flushing, false, false, false, false, NoTask)), Sender)
  }

  function Resume(s: State): State {
    if s.shell.deleted || !s.entry.knownPending || s.entry.request.Some? || s.entry.blocked || s.shell.closing then s
    else IssueChat(Asked(s, Request(Finishing, true, false, false, true, NoTask)), Completing)
  }

  /** Ask the host to stop the request, once. */
  function CancelWith(s: State, q: Request): State {
    if q.task.NoTask? then IssueCancel(SetRequest(s, Some(q.(task := Flying)))) else SetRequest(s, Some(q))
  }

  /** A failed attempt to stop may be repeated. */
  function CancelEntry(s: State): State {
    if s.entry.request.None? then s
    else
      var q := s.entry.request.value.(cancelled := true);
      var again := if q.task.CancelFailed? then q.(task := NoTask) else q;
      if q.acked then CancelWith(s, again) else SetRequest(s, Some(again))
  }

  function Cancel(s: State): State { if s.shell.deleted then s else CancelEntry(s) }

  /** The entry once a start is acknowledged: the host has taken the draft. */
  function TakeStart(s: State, saved: Saved): State {
    if s.entry.blocked || s.shell.deleted then s
    else ApplyMessages(s.(entry := s.entry.(draft := saved.draft, version := saved.version, dirty := false)), saved)
  }

  function DeliverStart(s: State): State {
    if s.wire.start.None? || s.wire.start.value.Sent? then s
    else
      var idle := s.(wire := s.wire.(start := None));
      if s.entry.request.None? then idle
      else
        var q := s.entry.request.value;
        if s.wire.start.value.Refusal? then SetRequest(idle, Some(q.(stage := Settling)))
        else
          var taken := TakeStart(idle, s.wire.start.value.value);
          if q.cancelled || q.stale || s.entry.blocked then CancelWith(taken, q.(acked := true, stage := CancelWait))
          else SetRequest(taken, Some(q.(acked := true, stage := Refreshing)))
  }

  function DeliverChat(s: State): State {
    if s.wire.chat.None? || s.wire.chat.value.reply.Sent? then s
    else
      var call := s.wire.chat.value;
      var idle := s.(wire := s.wire.(chat := None));
      if s.entry.request.None? then idle
      else
        var q := s.entry.request.value;
        if call.reply.Refusal? then
          SetRequest(idle, Some(q.(stage := if call.kind.Completing? && !q.resumed then Draining else Settling)))
        else if !q.cancelled && (q.resumed || !q.stale) then
          SetRequest(ApplyMessages(idle, call.reply.value), Some(q.(stage := Settling)))
        else SetRequest(idle, Some(q.(stage := Settling)))
  }

  /** What a request's end leaves: nothing, unless a cancel of it failed. */
  function Release(s: State, q: Request): State {
    if q.task.CancelFailed? then SetRequest(s, Some(q.(stage := Over))) else SetRequest(s, None)
  }

  function AfterCancel(s: State, q: Request): State {
    if q.stage.CancelWait? then SetRequest(s, Some(q.(stage := Settling)))
    else if Finished(q) then Release(s, q)
    else SetRequest(s, Some(q))
  }

  function DeliverCancel(s: State): State {
    if s.wire.cancel.None? || s.wire.cancel.value.Sent? then s
    else
      var task := if s.wire.cancel.value.Answer? then Acknowledged else CancelFailed;
      var idle := s.(wire := s.wire.(cancel := None),
                     ledger := s.ledger.(requests := LastCancel(s.ledger.requests, task)));
      if s.entry.request.None? then idle
      else
        AfterCancel(if s.wire.cancel.value.Answer? then ApplyMessages(idle, s.wire.cancel.value.value) else idle,
                    s.entry.request.value.(task := task))
  }

  /** A wait on the runtime is over. */
  function Tick(s: State): State {
    if s.entry.request.None? then s
    else
      var q := s.entry.request.value;
      match q.stage
      case Refreshing => IssueChat(SetRequest(s, Some(q.(stage := Finishing))), Completing)
      case Draining =>
        if !s.entry.blocked && !s.shell.deleted && !q.cancelled && !q.stale && q.acked
        then IssueChat(SetRequest(s, Some(q.(stage := Finishing))), Recovering)
        else SetRequest(s, Some(q.(stage := Settling)))
      case Settling =>
        var told := s.(ledger := s.ledger.(requests := LastFinished(s.ledger.requests)));
        if q.task.Flying? then SetRequest(told, Some(q.(stage := CancelEnd))) else Release(told, q)
      case _ => s
  }

  /** The connection changed: what is under way is no longer current. */
  function Outdate(s: State): State {
    if s.entry.request.None? then s else SetRequest(s, Some(s.entry.request.value.(stale := true)))
  }

  // ---------------------------------------------------------------- deleting, navigating, closing

  function BeginDelete(s: State): State {
    if s.shell.navigating || s.shell.closing || s.shell.deleted then s
    else CancelEntry(s.(shell := s.shell.(navigating := true, deletion := Waiting), entry := s.entry.(blocked := true)))
  }

  /** Issued writes have come back and the request has run its course. */
  predicate Drained(s: State) {
    s.wire.draft.None? && (s.entry.request.None? || s.entry.request.value.stage.Over?)
  }

  function CallDelete(s: State): State {
    if !s.shell.deletion.Waiting? || !Drained(s) then s
    else s.(shell := s.shell.(deletion := Called), wire := s.wire.(delete := Some(Sent)),
            ledger := s.ledger.(clash := s.ledger.clash || s.wire.delete.Some?))
  }

  function DeliverDelete(s: State): State {
    if s.wire.delete.None? || s.wire.delete.value.Sent? then s
    else
      var idle := s.(wire := s.wire.(delete := None));
      if s.wire.delete.value.Answer?
      then idle.(shell := s.shell.(deletion := NoDeletion, navigating := false, deleted := true, listed := false))
      else idle.(shell := s.shell.(deletion := NoDeletion, navigating := false), entry := s.entry.(blocked := false))
  }

  function Navigate(s: State): State {
    if s.shell.navigating || s.shell.closing then s else Flush(s.(shell := s.shell.(navigating := true)), Background)
  }

  function Arrive(s: State): State {
    if s.shell.deletion.NoDeletion? then s.(shell := s.shell.(navigating := false)) else s
  }

  function Close(s: State): State { Flush(s.(shell := s.shell.(closing := true)), Background) }

  function Reopen(s: State): State { s.(shell := s.shell.(closing := false)) }

  // ---------------------------------------------------------------- the host executes

  function Snapshot(h: Host): Saved { Saved(h.draft, h.version, h.pending) }

  function Written(h: Host, draft: string, version: nat): Host {
    if h.version < version then h.(draft := draft, version := version) else h
  }

  /** An accepted draft, or a refusal that may still have written. */
  function ExecuteDraft(s: State, accepts: bool, writes: bool): State {
    if s.wire.draft.None? || !s.wire.draft.value.reply.Sent? then s
    else
      var call := s.wire.draft.value;
      if !s.host.stands then s.(wire := s.wire.(draft := Some(call.(reply := Refusal))))
      else
        var host := if accepts || writes then Written(s.host, call.draft, call.version) else s.host;
        var reply := if accepts then Answer(Snapshot(host)) else Refusal;
        s.(host := host, wire := s.wire.(draft := Some(call.(reply := reply))))
  }

  /** A started message empties the draft and moves its version; a rejected one changes nothing. */
  function ExecuteStart(s: State, accepts: bool): State {
    if s.wire.start.None? || !s.wire.start.value.Sent? then s
    else if !accepts || !s.host.stands || s.host.pending then s.(wire := s.wire.(start := Some(Refusal)))
    else
      var host := s.host.(draft := "", version := s.host.version + 1, pending := true);
      s.(host := host, wire := s.wire.(start := Some(Answer(Snapshot(host)))))
  }

  function ExecuteChat(s: State, accepts: bool, pending: bool): State {
    if s.wire.chat.None? || !s.wire.chat.value.reply.Sent? then s
    else
      var kind := s.wire.chat.value.kind;
      if !accepts || !s.host.stands then s.(wire := s.wire.(chat := Some(Chat(kind, Refusal))))
      else
        var host := if kind.Completing? then s.host.(pending := pending) else s.host;
        s.(host := host, wire := s.wire.(chat := Some(Chat(kind, Answer(Snapshot(host))))))
  }

  /** An accepted cancel ends the pending reply only when that reply is of the request it names. */
  function ExecuteCancel(s: State, accepts: bool, named: bool): State {
    if s.wire.cancel.None? || !s.wire.cancel.value.Sent? then s
    else if !accepts || !s.host.stands then s.(wire := s.wire.(cancel := Some(Refusal)))
    else
      var host := s.host.(pending := s.host.pending && !named);
      s.(host := host, wire := s.wire.(cancel := Some(Answer(Snapshot(host)))))
  }

  function ExecuteDelete(s: State, accepts: bool): State {
    if s.wire.delete.None? || !s.wire.delete.value.Sent? then s
    else if !accepts || !s.host.stands then s.(wire := s.wire.(delete := Some(Refusal)))
    else s.(host := s.host.(stands := false), wire := s.wire.(delete := Some(Answer(()))))
  }

  // ---------------------------------------------------------------- everything that can happen

  datatype Action =
    | DoEdit(draft: string) | DoFlush | DoSend(ready: bool) | DoResume | DoCancel | DoTick | DoOutdate
    | DoDelete | DoCallDelete | DoNavigate | DoArrive | DoClose | DoReopen
    | RunDraft(accepts: bool, writes: bool) | RunStart(accepts: bool) | RunChat(accepts: bool, pending: bool)
    | RunCancel(accepts: bool, named: bool) | RunDelete(accepts: bool)
    | GotDraft | GotStart | GotChat | GotCancel | GotDelete

  function Act(s: State, a: Action): State {
    match a
    case DoEdit(draft) => Edit(s, draft)
    case DoFlush => Flush(s, Background)
    case DoSend(ready) => Send(s, ready)
    case DoResume => Resume(s)
    case DoCancel => Cancel(s)
    case DoTick => Tick(s)
    case DoOutdate => Outdate(s)
    case DoDelete => BeginDelete(s)
    case DoCallDelete => CallDelete(s)
    case DoNavigate => Navigate(s)
    case DoArrive => Arrive(s)
    case DoClose => Close(s)
    case DoReopen => Reopen(s)
    case RunDraft(accepts, writes) => ExecuteDraft(s, accepts, writes)
    case RunStart(accepts) => ExecuteStart(s, accepts)
    case RunChat(accepts, pending) => ExecuteChat(s, accepts, pending)
    case RunCancel(accepts, named) => ExecuteCancel(s, accepts, named)
    case RunDelete(accepts) => ExecuteDelete(s, accepts)
    case GotDraft => DeliverDraft(s)
    case GotStart => DeliverStart(s)
    case GotChat => DeliverChat(s)
    case GotCancel => DeliverCancel(s)
    case GotDelete => DeliverDelete(s)
  }
}
