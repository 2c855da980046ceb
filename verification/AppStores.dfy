/** The window's store and the host's row as the sources write them: records updated step by step, one
    method for each stretch between two awaits. */
module AppStores {
  import opened Wrappers
  import R = Renderer
  import opened Renderer

  /** Request ids. */
  type Id = nat

  /** The native row of one workspace; `pending` names the request whose reply is awaited. */
  class HostRow {
    var stands: bool
    var draft: string
    var version: nat
    var pending: Option<Id>

    ghost function Row(): Host
      reads this
    {
      Host(stands, draft, version, pending.Some?)
    }

    constructor (draft: string, version: nat, pending: Option<Id>)
      ensures Row() == Host(true, draft, version, pending.Some?) && this.pending == pending
    {
      this.stands, this.draft, this.version, this.pending := true, draft, version, pending;
    }

    method Workspace() returns (saved: Saved)
      ensures saved == Snapshot(Row())
    {
      return Saved(draft, version, pending.Some?);
    }

    /** Only a newer version is written; either way the row is returned. */
    method UpdateDraft(text: string, newVersion: nat) returns (saved: Option<Saved>)
      modifies this
      ensures Row() == (if old(stands) then Written(old(Row()), text, newVersion) else old(Row()))
              && pending == old(pending)
      ensures saved == if old(stands) then Some(Snapshot(Row())) else None
    {
      if !stands { return None; }
      if version < newVersion { draft, version := text, newVersion; }
      var row := Workspace();
      return Some(row);
    }

    /** `admitted` stands for the checks of content, history and request id. */
    method StartCaptured(id: Id, admitted: bool) returns (saved: Option<Saved>)
      modifies this
      ensures if old(stands) && old(pending).None? && admitted
              then Row() == Host(true, "", old(version) + 1, true) && pending == Some(id)
                  && saved == Some(Snapshot(Row()))
              else Row() == old(Row()) && pending == old(pending) && saved == None
    {
      if !stands || pending.Some? || !admitted { return None; }
      draft, version, pending := "", version + 1, Some(id);
      var row := Workspace();
      return Some(row);
    }

    /** Only the pending reply of the request that is named ends; another one is left alone. */
    method CancelPending(id: Id) returns (saved: Option<Saved>)
      modifies this`pending
      ensures pending == if stands && old(pending) == Some(id) then None else old(pending)
      ensures saved == if stands then Some(Snapshot(Row())) else None
    {
      if !stands { return None; }
      if pending == Some(id) { pending := None; }
      var row := Workspace();
      return Some(row);
    }

    method Delete() returns (found: bool)
      modifies this`stands
      ensures found == old(stands) && !stands
    {
      found := stands;
      stands := false;
    }
  }

  class AppStore {
    ghost var host: Host
    ghost var ledger: Ledger
    var draft: string
    var version: nat
    var dirty: bool
    var blocked: bool
    var knownPending: bool
    var request: Option<Request>
    var waiters: seq<Waiter>
    var wire: Wire
    var shell: Shell

    ghost function Now(): State
      reads this
    {
      State(host, Entry(draft, version, dirty, blocked, knownPending, request, waiters), wire, shell, ledger)
    }

    constructor (row: Saved)
      ensures Now() == Begin(row.draft, row.version, row.pending)
    {
      host := Host(true, row.draft, row.version, row.pending);
      draft, version, dirty, blocked, knownPending := row.draft, row.version, false, false, row.pending;
      request, waiters := None, [];
      wire := Wire(None, None, None, None, None);
      shell := Shell(NoDeletion, false, true, false, false);
      ledger := Ledger(0, 0, 0, false, []);
    }

    // ---------------------------------------------------------------- drafts

    method PublishSummary()
      modifies this`shell
      ensures Now() == Publish(old(Now()))
    {
      if shell.deleted { return; }
      shell := shell.(listed := true);
    }

    method ApplyMessages(saved: Saved)
      modifies this
      ensures Now() == R.ApplyMessages(old(Now()), saved)
    {
      if blocked || shell.deleted { return; }
      if !dirty && saved.version >= version { draft := saved.draft; }
      version := if saved.version > version then saved.version else version;
      knownPending := saved.pending;
      PublishSummary();
    }

    method EditDraft(text: string)
      modifies this`draft, this`version, this`dirty
      ensures Now() == Edit(old(Now()), text)
    {
      if blocked || shell.deleted || shell.navigating || shell.closing || (request.Some? && !request.value.acked) {
        return;
      }
      if |text| > 32_000 || text == draft { return; }
      draft := text;
      version := version + 1;
      dirty := true;
    }

    /** The flush a sender waited for is over. */
    method ContinueWaiter(w: Waiter, succeeded: bool)
      modifies this
      ensures Now() == Resumed(old(Now()), w, succeeded)
    {
      if w.Background? || request.None? || !request.value.stage.Flushing? { return; }
      var q := request.value;
      if !succeeded || q.cancelled || blocked {
        request := Some(q.(stage := Settling));
        return;
      }
      request := Some(q.(stage := Starting));
      ledger := ledger.(starts := ledger.starts + 1, clash := ledger.clash || wire.start.Some?);
      wire := wire.(start := Some(Sent));
    }

    /** The chain of flushes, as far as it goes before the next reply. */
    method RunFlushes()
      modifies this
      ensures Now() == Pump(old(Now()))
    {
      while wire.draft.None? && waiters != []
        invariant Pump(old(Now())) == Pump(Now())
        decreases |waiters|
      {
        if dirty && !blocked && !shell.deleted {
          ledger := ledger.(drafts := ledger.drafts + 1, clash := ledger.clash || wire.draft.Some?);
          wire := wire.(draft := Some(DraftCall(draft, version, Sent)));
          return;
        }
        var w := waiters[0];
        waiters := waiters[1..];
        ContinueWaiter(w, true);
      }
    }

    method FlushEntry(w: Waiter)
      modifies this
      ensures Now() == Flush(old(Now()), w)
    {
      waiters := waiters + [w];
      RunFlushes();
    }

    method EndFlush(succeeded: bool)
      modifies this
      ensures Now() == FlushEnded(old(Now()), succeeded)
    {
      if waiters == [] { return; }
      var w := waiters[0];
      waiters := waiters[1..];
      ContinueWaiter(w, succeeded);
      RunFlushes();
    }

    method DeliverDraft()
      modifies this
      ensures Now() == R.DeliverDraft(old(Now()))
    {
      if wire.draft.None? || wire.draft.value.reply.Sent? { return; }
      var call := wire.draft.value;
      wire := wire.(draft := None);
      if call.reply.Refusal? {
        EndFlush(false);
      } else if blocked || shell.deleted {
        EndFlush(true);
      } else if call.reply.value.version != call.version || call.reply.value.draft != call.draft {
        EndFlush(false);
      } else {
        if version == call.version { dirty := false; }
        PublishSummary();
        RunFlushes();
      }
    }

    // ---------------------------------------------------------------- messages

    method Send(ready: bool)
      modifies this
      ensures Now() == R.Send(old(Now()), ready)
    {
      if blocked || shell.deleted || request.Some? || shell.navigating || shell.closing || knownPending || !ready {
        return;
      }
      request := Some(Request(Flushing, false, false, false, false, NoTask));
      ledger := ledger.(requests := ledger.requests + [Facts(false, NoTask)]);
      FlushEntry(Sender);
    }

    method ResumeReply()
      modifies this
      ensures Now() == Resume(old(Now()))
    {
      if shell.deleted || !knownPending || request.Some? || blocked || shell.closing { return; }
      request := Some(Request(Finishing, true, false, false, true, NoTask));
      ledger := ledger.(requests := ledger.requests + [Facts(false, NoTask)]);
      CallChat(Completing);
    }

    method CallChat(kind: ChatKind)
      modifies this`wire, this`ledger
      ensures Now() == IssueChat(old(Now()), kind)
    {
      ledger := ledger.(clash := ledger.clash || wire.chat.Some?);
      wire := wire.(chat := Some(Chat(kind, Sent)));
    }

    /** One cancel call for a request, however often it is asked for. */
    method CancelAcknowledged(q: Request)
      modifies this
      ensures Now() == CancelWith(old(Now()), q)
    {
      request := Some(q);
      if !q.task.NoTask? { return; }
      request := Some(q.(task := Flying));
      ledger := ledger.(cancels := ledger.cancels + 1, clash := ledger.clash || wire.cancel.Some?,
                        requests := LastCancel(ledger.requests, Flying));
      wire := wire.(cancel := Some(Sent));
    }

    method CancelEntry()
      modifies this
      ensures Now() == R.CancelEntry(old(Now()))
    {
      if request.None? { return; }
      var q := request.value.(cancelled := true);
      if q.task.CancelFailed? { q := q.(task := NoTask); }
      if q.acked {
        CancelAcknowledged(q);
      } else {
        request := Some(q);
      }
    }

    method DeliverStart()
      modifies this
      ensures Now() == R.DeliverStart(old(Now()))
    {
      if wire.start.None? || wire.start.value.Sent? { return; }
      var reply := wire.start.value;
      wire := wire.(start := None);
      if request.None? { return; }
      var q := request.value;
      if reply.Refusal? {
        request := Some(q.(stage := Settling));
        return;
      }
      if !blocked && !shell.deleted {
        draft := reply.value.draft;
        version := reply.value.version;
        dirty := false;
        ApplyMessages(reply.value);
      }
      if q.cancelled || q.stale || blocked {
        CancelAcknowledged(q.(acked := true, stage := CancelWait));
      } else {
        request := Some(q.(acked := true, stage := Refreshing));
      }
    }

    method DeliverChat()
      modifies this
      ensures Now() == R.DeliverChat(old(Now()))
    {
      if wire.chat.None? || wire.chat.value.reply.Sent? { return; }
      var call := wire.chat.value;
      wire := wire.(chat := None);
      if request.None? { return; }
      var q := request.value;
      if call.reply.Refusal? {
        request := Some(q.(stage := if call.kind.Completing? && !q.resumed then Draining else Settling));
        return;
      }
      if !q.cancelled && (q.resumed || !q.stale) { ApplyMessages(call.reply.value); }
      request := Some(q.(stage := Settling));
    }

    method ReleaseRequest(q: Request)
      modifies this`request
      ensures Now() == Release(old(Now()), q)
    {
      request := if q.task.CancelFailed? then Some(q.(stage := Over)) else None;
    }

    method DeliverCancel()
      modifies this
      ensures Now() == R.DeliverCancel(old(Now()))
    {
      if wire.cancel.None? || wire.cancel.value.Sent? { return; }
      var reply := wire.cancel.value;
      var task := if reply.Answer? then Acknowledged else CancelFailed;
      wire := wire.(cancel := None);
      ledger := ledger.(requests := LastCancel(ledger.requests, task));
      if request.None? { return; }
      var q := request.value.(task := task);
      if reply.Answer? { ApplyMessages(reply.value); }
      if q.stage.CancelWait? {
        request := Some(q.(stage := Settling));
      } else if Finished(q) {
        ReleaseRequest(q);
      } else {
        request := Some(q);
      }
    }

    method RuntimeRefreshed()
      modifies this
      ensures Now() == Tick(old(Now()))
    {
      hide LastFinished;
      if request.None? { return; }
      var q := request.value;
      match q.stage {
        case Refreshing =>
          request := Some(q.(stage := Finishing));
          CallChat(Completing);
        case Draining =>
          if !blocked && !shell.deleted && !q.cancelled && !q.stale && q.acked {
            request := Some(q.(stage := Finishing));
            CallChat(Recovering);
          } else {
            request := Some(q.(stage := Settling));
          }
        case Settling =>
          ledger := ledger.(requests := LastFinished(ledger.requests));
          if q.task.Flying? {
            request := Some(q.(stage := CancelEnd));
          } else {
            ReleaseRequest(q);
          }
        case _ =>
      }
    }

    // ---------------------------------------------------------------- deleting

    method BeginDelete()
      modifies this
      ensures Now() == R.BeginDelete(old(Now()))
    {
      if shell.navigating || shell.closing || shell.deleted { return; }
      shell := shell.(navigating := true, deletion := Waiting);
      blocked := true;
      CancelEntry();
    }

    method CallDelete()
      modifies this
      ensures Now() == R.CallDelete(old(Now()))
    {
      if !shell.deletion.Waiting? || wire.draft.Some? || (request.Some? && !request.value.stage.Over?) { return; }
      ledger := ledger.(clash := ledger.clash || wire.delete.Some?);
      shell := shell.(deletion := Called);
      wire := wire.(delete := Some(Sent));
    }

    method DeliverDelete()
      modifies this
      ensures Now() == R.DeliverDelete(old(Now()))
    {
      if wire.delete.None? || wire.delete.value.Sent? { return; }
      var reply := wire.delete.value;
      wire := wire.(delete := None);
      shell := shell.(deletion := NoDeletion, navigating := false);
      if reply.Answer? {
        shell := shell.(deleted := true, listed := false);
      } else {
        blocked := false;
      }
    }
  }
}
