/** How a run comes to its end: what a success asks for, what each of the four endings writes, and
    that no live run succeeds once its time is over. */
module Finishes {
  import opened Wrappers
  import opened Engine
  import opened Verdicts
  import opened Writes
  import opened Endings
  import H = History

  // ---------------------------------------------------------------- what the worker hands back

  /** A result that claims to be whole. */
  ghost predicate Whole(result: Option<WorkerResult>) {
    && result.Some? && result.value.completed
    && !result.value.failed && !result.value.interrupted && !result.value.error
  }

  /** The committed history, extended by this run, and its last word is the final response. */
  ghost predicate Extends(env: Env, run: Run, result: WorkerResult, messages: seq<H.Message>) {
    && H.CompletedHistory(env.cfg.codec, result.messages, run.history, run.input.message,
                          run.input.budgets.maxToolCalls, run.input.budgets.maxIterations) == Some(messages)
    && messages != []
    && exists calls, reasoning, content, finish, at ::
         messages[|messages| - 1] == H.Assistant(Some(result.finalResponse), calls, reasoning, content, finish, at)
  }

  ghost predicate ResultStands(env: Env, run: Run, result: Option<WorkerResult>) {
    && Whole(result)
    && PlainText(result.value.finalResponse, 0, 64000) && H.Utf8Bytes(result.value.finalResponse) <= 65536
    && exists messages :: Extends(env, run, result.value, messages)
  }

  ghost function WhyNotAccepted(env: Env, run: Run, result: Option<WorkerResult>): Code {
    if !Whole(result) then HermesIncomplete
    else if PlainText(result.value.finalResponse, 0, 64000) && H.Utf8Bytes(result.value.finalResponse) > 65536
    then BudgetExceeded
    else InvalidRequest
  }

  lemma AcceptExactly(env: Env, run: Run, result: Option<WorkerResult>)
    ensures var r := AcceptResult(env, run, result);
            && (r.Ok? <==> ResultStands(env, run, result))
            && (r.Ok? ==> Extends(env, run, result.value, r.value))
            && (r.Err? ==> r.error == WhyNotAccepted(env, run, result))
  {
    hide H.CompletedHistory, H.Utf8Bytes;
    var r := AcceptResult(env, run, result);
    if r.Ok? {
      var m := r.value[|r.value| - 1];
      assert m == H.Assistant(Some(result.value.finalResponse), m.calls, m.reasoning, m.reasoningContent,
                              m.finishReason, m.timestamp);
      assert Extends(env, run, result.value, r.value);
    }
  }

  // ---------------------------------------------------------------- success

  /** The pending proposals of a run. */
  ghost function Prepared(db: Db, rid: Id): set<Id> {
    set p | p in db.proposals && db.proposals[p].source == Some(rid) && db.proposals[p].state == Pending
  }

  /** A scheduled run has prepared exactly one publication, of the revision after the one it was given. */
  ghost predicate RefreshStands(db: Db, env: Env, rid: Id, target: nat) {
    |Prepared(db, rid)| == 1 && forall p | p in Prepared(db, rid) :: MayPublish(db, env, p, target, true)
  }

  ghost predicate MaySucceed(db: Db, env: Env, rid: Id, result: Option<WorkerResult>, failure: Option<Code>)
    requires rid in db.runs
  {
    var run := db.runs[rid];
    && MayAct(db, env, run) && failure == None && ResultStands(env, run, result)
    && (run.schedule.Some? ==> RefreshStands(db, env, rid, run.schedule.value.targetRevision))
  }

  /** What a success commits before it is told: an operator's history, or a schedule's publication. */
  ghost predicate Commits(db: Db, env: Env, rid: Id, result: WorkerResult, newId: Id, b: Db)
    requires rid in db.runs
  {
    var run := db.runs[rid];
    if run.schedule.None? then
      && run.input.workspaceId in db.workspaces
      && exists messages ::
           && Extends(env, run, result, messages)
           && b == db.(workspaces := db.workspaces[run.input.workspaceId :=
                                       db.workspaces[run.input.workspaceId].(history := messages)])
    else
      exists p | p in Prepared(db, rid) ::
        var target := db.proposals[p].interfaceId;
        b == PublishedAs(db, p, if target.Some? then target.value else newId)
  }

  /** The final text is kept and told, and the run has succeeded. */
  function SucceededAs(db: Db, rid: Id, text: string): Db
    requires rid in db.runs
  {
    Told(db, rid, db.runs[rid].(finalMessage := Some(text), state := Succeeded, reason := None),
         [AssistantMessage(text), StateChanged(Succeeded, None)])
  }

  lemma SucceedTells(db: Db, rid: Id, text: string)
    requires rid in db.runs
    ensures var named := PutRun(db, rid, db.runs[rid].(finalMessage := Some(text)));
            && rid in Emit(named, rid, AssistantMessage(text)).runs
            && Move(Emit(named, rid, AssistantMessage(text)), rid, Succeeded, None) == SucceededAs(db, rid, text)
  {
    var run := db.runs[rid].(finalMessage := Some(text));
    var named := PutRun(db, rid, run);
    EmitMoveTells(named, rid, AssistantMessage(text), Succeeded, None);
    var next := run.(state := Succeeded, reason := None);
    var kinds := [AssistantMessage(text), StateChanged(Succeeded, None)];
    assert db.runs[rid := run][rid := next.(lastSeq := next.lastSeq + |kinds|)] ==
           db.runs[rid := next.(lastSeq := next.lastSeq + |kinds|)];
    assert Told(named, rid, next, kinds) == Told(db, rid, next, kinds);
    hide Emit, Move, Numbered;
  }

  lemma PreparedIs(db: Db, rid: Id)
    ensures Prepared(db, rid) == PendingOf(db, rid)
  {}

  lemma OnePrepared(db: Db, env: Env, rid: Id, target: nat)
    requires |PendingOf(db, rid)| == 1
    ensures var p := Only(PendingOf(db, rid));
            && p in Prepared(db, rid)
            && (RefreshStands(db, env, rid, target) <==> MayPublish(db, env, p, target, true))
  {
    PreparedIs(db, rid);
    var p := Only(PendingOf(db, rid));
    assert Prepared(db, rid) == {p};
    hide Prepared, PendingOf, MayPublish;
  }

  lemma RefreshExactly(db: Db, env: Env, rid: Id, link: ScheduleLink, newId: Id)
    requires newId !in db.interfaces && rid in db.runs
    ensures var r := PublishRefresh(db, env, rid, link, newId);
            && (r.Ok? <==> RefreshStands(db, env, rid, link.targetRevision))
            && (r.Ok? ==>
                  && rid in r.value.runs
                  && exists p | p in Prepared(db, rid) ::
                       var iid := db.proposals[p].interfaceId;
                       r.value == PublishedAs(db, p, if iid.Some? then iid.value else newId))
  {
    PreparedIs(db, rid);
    if |Prepared(db, rid)| == 1 {
      var p := Only(PendingOf(db, rid));
      OnePrepared(db, env, rid, link.targetRevision);
      PublishExactly(db, env, p, link.targetRevision, true, newId);
      PublishedElsewhere(db, p, if db.proposals[p].interfaceId.Some? then db.proposals[p].interfaceId.value else newId);
    }
    hide PendingOf, MayPublish, Publish, PublishedAs;
  }

  lemma PublishedElsewhere(db: Db, pid: Id, iid: Id)
    requires pid in db.proposals
    ensures var b := PublishedAs(db, pid, iid);
            db.runs.Keys <= b.runs.Keys && b.tools == db.tools && b.workspaces == db.workspaces
  {
    hide Told, WrittenAs;
    var p := db.proposals[pid];
    WrittenElsewhere(db, pid, iid);
    if p.source.Some? && p.source.value in db.runs {
      ToldElsewhere(WrittenAs(db, pid, iid), p.source.value, db.runs[p.source.value],
                    [InterfaceUpdated(iid, p.expectedRevision + 1)]);
    }
  }

  lemma WrittenElsewhere(db: Db, pid: Id, iid: Id)
    requires pid in db.proposals
    ensures var b := WrittenAs(db, pid, iid); b.runs == db.runs && b.tools == db.tools && b.workspaces == db.workspaces
  {}

  lemma CommitExactly(db: Db, env: Env, rid: Id, messages: seq<H.Message>)
    requires rid in db.runs && MayAct(db, env, db.runs[rid])
    ensures var wid := db.runs[rid].input.workspaceId;
            && wid in db.workspaces
            && CommitHistory(db, wid, messages) ==
               Ok(db.(workspaces := db.workspaces[wid := db.workspaces[wid].(history := messages)]))
  {}

  lemma StandingResult(env: Env, run: Run, result: Option<WorkerResult>)
    ensures ResultStands(env, run, result) ==> result.Some?
  {
    hide Extends;
  }

  lemma CompleteExactly(db: Db, env: Env, rid: Id, result: Option<WorkerResult>, failure: Option<Code>, newId: Id)
    requires newId !in db.interfaces && rid in db.runs
    ensures var r := Complete(db, env, rid, result, failure, newId);
            && (r.Ok? <==> MaySucceed(db, env, rid, result, failure))
            && (r.Ok? ==>
                  exists c :: Commits(db, env, rid, result.value, newId, c) && rid in c.runs
                              && r.value == SucceededAs(c, rid, result.value.finalResponse))
  {
    hide Fence, MayAct, AcceptResult, ResultStands, Extends, PublishRefresh, RefreshStands, CommitHistory, Emit, Move,
        SucceededAs;
    hide PublishedAs;
    var run := db.runs[rid];
    FenceExactly(db, env, run);
    AcceptExactly(env, run, result);
    if run.schedule.Some? { RefreshExactly(db, env, rid, run.schedule.value, newId); }
    StandingResult(env, run, result);
    if MayAct(db, env, run) && failure == None && ResultStands(env, run, result) {
      var messages := AcceptResult(env, run, result).value;
      CommitExactly(db, env, rid, messages);
      var r := Complete(db, env, rid, result, failure, newId);
      if r.Ok? {
        var c := if run.schedule.Some? then PublishRefresh(db, env, rid, run.schedule.value, newId).value
                 else CommitHistory(db, run.input.workspaceId, messages).value;
        SucceedTells(c, rid, result.value.finalResponse);
        assert Commits(db, env, rid, result.value, newId, c);
      }
    }
  }

  // ---------------------------------------------------------------- failure

  ghost function WhyNoSuccess(db: Db, env: Env, rid: Id, result: Option<WorkerResult>, failure: Option<Code>): Code
    requires rid in db.runs && !MaySucceed(db, env, rid, result, failure)
  {
    var run := db.runs[rid];
    if !MayAct(db, env, run) then WhyNot(db, env, run)
    else if failure.Some? then failure.value
    else if !ResultStands(env, run, result) then WhyNotAccepted(env, run, result)
    else if |Prepared(db, rid)| != 1 then InvalidRefresh
    else
      var p :| p in Prepared(db, rid);
      if MayPublish(db, env, p, run.schedule.value.targetRevision, true) then InvalidRefresh
      else WhyUnpublished(db, env, p, run.schedule.value.targetRevision, true)
  }

  lemma CompleteCode(db: Db, env: Env, rid: Id, result: Option<WorkerResult>, failure: Option<Code>, newId: Id)
    requires newId !in db.interfaces && rid in db.runs && !MaySucceed(db, env, rid, result, failure)
    ensures Complete(db, env, rid, result, failure, newId) == Err(WhyNoSuccess(db, env, rid, result, failure))
  {
    hide Fence, MayAct, AcceptResult, ResultStands, Extends, Publish, CommitHistory, MayPublish, WhyNot, WhyUnpublished;
    hide WhyNotAccepted, Emit, Move;
    var run := db.runs[rid];
    FenceExactly(db, env, run);
    if !MayAct(db, env, run) {
      FenceCode(db, env, run);
    } else if failure == None {
      AcceptExactly(env, run, result);
      if ResultStands(env, run, result) && run.schedule.Some? { RefreshCode(db, env, rid, run.schedule.value, newId); }
    }
  }

  lemma RefreshCode(db: Db, env: Env, rid: Id, link: ScheduleLink, newId: Id)
    requires newId !in db.interfaces && rid in db.runs && !RefreshStands(db, env, rid, link.targetRevision)
    ensures |Prepared(db, rid)| != 1 ==> PublishRefresh(db, env, rid, link, newId) == Err(InvalidRefresh)
    ensures |Prepared(db, rid)| == 1 ==>
              forall p | p in Prepared(db, rid) ::
                && !MayPublish(db, env, p, link.targetRevision, true)
                && PublishRefresh(db, env, rid, link, newId) ==
                   Err(WhyUnpublished(db, env, p, link.targetRevision, true))
  {
    PreparedIs(db, rid);
    if |Prepared(db, rid)| == 1 {
      var p := Only(PendingOf(db, rid));
      OnePrepared(db, env, rid, link.targetRevision);
      PublishCode(db, env, p, link.targetRevision, true, newId);
      assert Prepared(db, rid) == {p};
    }
    hide PendingOf, MayPublish, Publish, WhyUnpublished, Prepared;
  }

  /** The authority that ran out blocks a run; anything else fails it. */
  function EndFor(code: Code): RunState {
    if code == DeadlineExceeded || code == GrantDenied || code == DeviceUnavailable then Blocked else Failed
  }

  /** The requests of the run hold nothing any more, and only a completed one stays so; no other changes. */
  ghost predicate ClosesExactly(a: map<Id, ToolRequest>, b: map<Id, ToolRequest>, rid: Id) {
    && b.Keys == a.Keys
    && forall t | t in a ::
         b[t] == if a[t].runId != rid then a[t]
                 else a[t].(result := None, claim := None,
                            state := if a[t].state == RequestState.Completed then RequestState.Completed
                                else RequestState.Withdrawn)
  }

  /** The pending proposals of the run are dropped and its end is told; nothing else changes. */
  ghost predicate EndsExactly(a: Db, b: Db, rid: Id, state: RunState, reason: Reason, after: seq<EventKind>)
    requires rid in a.runs
  {
    && DropsExactly(a.proposals, b.proposals, {rid})
    && b == Told(a.(proposals := b.proposals), rid, a.runs[rid].(state := state, reason := Some(reason)),
                 [StateChanged(state, Some(reason))] + after)
  }

  lemma CloseIsExact(db: Db, rid: Id)
    ensures ClosesExactly(db.tools, CloseRequests(db, rid).tools, rid)
    ensures CloseRequests(db, rid) == db.(tools := CloseRequests(db, rid).tools)
  {}

  lemma FailTells(db: Db, rid: Id, code: Code)
    requires rid in db.runs
    ensures var failed := Move(DropProposals(db, {rid}), rid, FailureState(code), Some(Fault(code)));
            && rid in failed.runs
            && EndsExactly(db, Emit(failed, rid, ErrorRaised(code)), rid, EndFor(code), Fault(code),
                           [ErrorRaised(code)])
  {
    DropIsExact(db, {rid});
    var dropped := DropProposals(db, {rid});
    var state, reason, run := EndFor(code), Some(Fault(code)), db.runs[rid];
    MoveTells(dropped, rid, state, reason);
    EmitTells(Move(dropped, rid, state, reason), rid, ErrorRaised(code));
    var moved := run.(state := state, reason := reason);
    ToldTwice(dropped, rid, moved, moved.(lastSeq := run.lastSeq + 1), [StateChanged(state, reason)],
              [ErrorRaised(code)]);
    hide DropProposals, Emit, Move, Numbered, DropsExactly;
  }

  lemma CancelTells(db: Db, rid: Id, reason: Reason)
    requires rid in db.runs
    ensures EndsExactly(db, DropProposals(Move(db, rid, Cancelled, Some(reason)), {rid}), rid, Cancelled, reason, [])
  {
    MoveTells(db, rid, Cancelled, Some(reason));
    var moved := Move(db, rid, Cancelled, Some(reason));
    DropIsExact(moved, {rid});
    assert [StateChanged(Cancelled, Some(reason))] + [] == [StateChanged(Cancelled, Some(reason))];
    hide DropProposals, Move, Numbered, DropsExactly;
  }

  // ---------------------------------------------------------------- the four endings

  /** Finishing never fails for a known run. One already over stays as it ended; one being stopped
      ends cancelled, for the reason it was stopped, and its tool results stay; one that may succeed
      commits what it prepared; any other is blocked or failed with the first thing against it. */
  lemma FinishExactly(db: Db, env: Env, rid: Id, result: Option<WorkerResult>, failure: Option<Code>, newId: Id)
    requires newId !in db.interfaces
    ensures var r := Finish(db, env, rid, result, failure, newId);
            && (r == Err(NotFound) <==> rid !in db.runs) && (r.Ok? <==> rid in db.runs)
            && (rid in db.runs ==> Ended(db, env, rid, result, failure, newId, r.value))
  {
    hide Complete, CloseRequests, DropProposals, Emit, Move, MaySucceed, Commits, EndsExactly, ClosesExactly,
        SucceededAs;
    hide WhyNoSuccess;
    if rid in db.runs && !Over(db.runs[rid].state) {
      var run := db.runs[rid];
      if run.state == Cancelling {
        CancelTells(db, rid, if run.reason.Some? then run.reason.value else Stopped);
      } else if MaySucceed(db, env, rid, result, failure) {
        FinishSucceeds(db, env, rid, result, failure, newId);
      } else {
        FinishFails(db, env, rid, result, failure, newId);
      }
    }
  }

  lemma FinishSucceeds(db: Db, env: Env, rid: Id, result: Option<WorkerResult>, failure: Option<Code>, newId: Id)
    requires newId !in db.interfaces && rid in db.runs && !Over(db.runs[rid].state) && db.runs[rid].state != Cancelling
    requires MaySucceed(db, env, rid, result, failure)
    ensures Finish(db, env, rid, result, failure, newId).Ok?
    ensures Ended(db, env, rid, result, failure, newId, Finish(db, env, rid, result, failure, newId).value)
  {
    CompleteExactly(db, env, rid, result, failure, newId);
    StandingResult(env, db.runs[rid], result);
    hide Complete, CloseRequests, MayAct, MaySucceed, Commits, ClosesExactly, SucceededAs, ResultStands, EndsExactly,
        WhyNoSuccess, H.Utf8Bytes;
    var done := Complete(db, env, rid, result, failure, newId).value;
    CloseIsExact(done, rid);
    var c :| Commits(db, env, rid, result.value, newId, c) && rid in c.runs
        && done == SucceededAs(c, rid, result.value.finalResponse);
    SucceedKeepsTools(db, env, rid, result.value, newId, c);
  }

  lemma FinishFails(db: Db, env: Env, rid: Id, result: Option<WorkerResult>, failure: Option<Code>, newId: Id)
    requires newId !in db.interfaces && rid in db.runs && !Over(db.runs[rid].state) && db.runs[rid].state != Cancelling
    requires !MaySucceed(db, env, rid, result, failure)
    ensures Finish(db, env, rid, result, failure, newId).Ok?
    ensures Ended(db, env, rid, result, failure, newId, Finish(db, env, rid, result, failure, newId).value)
  {
    hide Complete, CloseRequests, DropProposals, Emit, Move, MaySucceed, EndsExactly, ClosesExactly, WhyNoSuccess,
        FailureState;
    CompleteExactly(db, env, rid, result, failure, newId);
    CompleteCode(db, env, rid, result, failure, newId);
    var code := WhyNoSuccess(db, env, rid, result, failure);
    FailTells(db, rid, code);
    DropKeepsRuns(db, rid);
    var told := Emit(Move(DropProposals(db, {rid}), rid, FailureState(code), Some(Fault(code))), rid,
                     ErrorRaised(code));
    EndKeepsTools(db, told, rid, EndFor(code), Fault(code), [ErrorRaised(code)]);
    CloseIsExact(told, rid);
  }

  lemma DropKeepsRuns(db: Db, rid: Id)
    ensures DropProposals(db, {rid}).runs == db.runs
  {}

  ghost predicate Ended(db: Db, env: Env, rid: Id, result: Option<WorkerResult>, failure: Option<Code>, newId: Id,
                        b: Db)
    requires rid in db.runs
  {
    var run := db.runs[rid];
    if Over(run.state) then b == db
    else if run.state == Cancelling then
      EndsExactly(db, b, rid, Cancelled, if run.reason.Some? then run.reason.value else Stopped, [])
    else
      && ClosesExactly(db.tools, b.tools, rid)
      && if MaySucceed(db, env, rid, result, failure) then
           exists c :: result.Some? && Commits(db, env, rid, result.value, newId, c) && rid in c.runs
                       && b.(tools := db.tools) == SucceededAs(c, rid, result.value.finalResponse)
         else
           var code := WhyNoSuccess(db, env, rid, result, failure);
           EndsExactly(db, b.(tools := db.tools), rid, EndFor(code), Fault(code), [ErrorRaised(code)])
  }

  lemma SucceedKeepsTools(db: Db, env: Env, rid: Id, result: WorkerResult, newId: Id, c: Db)
    requires rid in db.runs && Commits(db, env, rid, result, newId, c) && rid in c.runs
    ensures SucceededAs(c, rid, result.finalResponse).tools == db.tools
  {
    ToldElsewhere(c, rid, c.runs[rid].(finalMessage := Some(result.finalResponse), state := Succeeded, reason := None),
                  [AssistantMessage(result.finalResponse), StateChanged(Succeeded, None)]);
    if db.runs[rid].schedule.Some? {
      hide PublishedAs;
      var p :| p in Prepared(db, rid) &&
               c == PublishedAs(db, p, if db.proposals[p].interfaceId.Some? then db.proposals[p].interfaceId.value
                                else newId);
      PublishedElsewhere(db, p, if db.proposals[p].interfaceId.Some? then db.proposals[p].interfaceId.value else newId);
    }
    hide Extends, Prepared, Told;
  }

  lemma EndKeepsTools(db: Db, b: Db, rid: Id, state: RunState, reason: Reason, after: seq<EventKind>)
    requires rid in db.runs && EndsExactly(db, b, rid, state, reason, after)
    ensures b.tools == db.tools
  {}

  /** No live run succeeds at or after its deadline, whatever its worker hands back: it is blocked, and
      publishes and commits nothing. */
  lemma LateFinishFails(db: Db, env: Env, rid: Id, result: Option<WorkerResult>, failure: Option<Code>, newId: Id)
    requires newId !in db.interfaces && rid in db.runs && db.runs[rid].deadline <= env.now
    requires db.runs[rid].state == Queued || db.runs[rid].state == Running || db.runs[rid].state == WaitingForDevice
    ensures var r := Finish(db, env, rid, result, failure, newId);
            && r.Ok? && rid in r.value.runs
            && (r.value.runs[rid].state == Failed || r.value.runs[rid].state == Blocked)
            && r.value.workspaces == db.workspaces && r.value.interfaces == db.interfaces
            && r.value.revisions == db.revisions
  {
    FinishExactly(db, env, rid, result, failure, newId);
    assert !MaySucceed(db, env, rid, result, failure);
    hide Finish, MayAct, MaySucceed, WhyNoSuccess, EndsExactly, ClosesExactly, Commits, SucceededAs;
    var b := Finish(db, env, rid, result, failure, newId).value;
    var code := WhyNoSuccess(db, env, rid, result, failure);
    EndsElsewhere(db, b.(tools := db.tools), rid, EndFor(code), Fault(code), [ErrorRaised(code)]);
  }

  lemma EndsElsewhere(db: Db, b: Db, rid: Id, state: RunState, reason: Reason, after: seq<EventKind>)
    requires rid in db.runs && EndsExactly(db, b, rid, state, reason, after)
    ensures rid in b.runs && b.runs[rid].state == state
    ensures b.workspaces == db.workspaces && b.interfaces == db.interfaces && b.revisions == db.revisions
  {
    hide DropsExactly, Told;
    ToldElsewhere(db.(proposals := b.proposals), rid, db.runs[rid].(state := state, reason := Some(reason)),
                  [StateChanged(state, Some(reason))] + after);
  }
}
