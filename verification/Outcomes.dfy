/** What single operations promise their callers, beyond keeping the joint invariant. */
module Outcomes {
  import opened Wrappers
  import opened Engine
  import opened Invariant
  import opened RunSteps
  import opened Authority
  import opened Publication
  import opened Scheduling
  import opened Work
  import B = Behaviours
  import V = Verdicts
  import H = History

  // ---------------------------------------------------------------- dispatch takes the first

  /** The tables that decide whether a run may act. */
  ghost predicate SameAuthority(a: Db, b: Db) {
    a.workspaces == b.workspaces && a.grants == b.grants && a.interfaces == b.interfaces && a.schedules == b.schedules
  }

  lemma {:induction false} GrantsElsewhere(a: Db, b: Db, env: Env, wid: Id, model: Id, refs: seq<GrantRef>)
    requires SameAuthority(a, b)
    ensures CheckGrants(a, env, wid, model, refs) == CheckGrants(b, env, wid, model, refs)
  {
    if refs != [] { GrantsElsewhere(a, b, env, wid, model, refs[1..]); }
  }

  lemma {:induction false} InterfacesElsewhere(a: Db, b: Db, iids: seq<Id>)
    requires SameAuthority(a, b)
    ensures CheckInterfaces(a, iids) == CheckInterfaces(b, iids)
  {
    if iids != [] { InterfacesElsewhere(a, b, iids[1..]); }
  }

  lemma FenceElsewhere(a: Db, b: Db, env: Env, run: Run)
    requires SameAuthority(a, b)
    ensures Fence(a, env, run) == Fence(b, env, run)
  {
    GrantsElsewhere(a, b, env, run.input.workspaceId, run.input.modelId, run.input.grantRefs);
    InterfacesElsewhere(a, b, run.input.interfaceIds);
    hide CheckGrants, CheckInterfaces;
  }

  predicate Waiting(db: Db, r: Id) { r in db.runs && db.runs[r].state.Queued? }

  /** The position of the first queued run that may act. */
  function First(db: Db, env: Env, rows: seq<Id>): (i: nat)
    ensures i <= |rows|
  {
    if rows == [] then 0
    else if Waiting(db, rows[0]) && Fence(db, env, db.runs[rows[0]]).Pass? then 0
    else 1 + First(db, env, rows[1..])
  }

  lemma {:induction false} FirstElsewhere(a: Db, b: Db, env: Env, rows: seq<Id>)
    requires SameAuthority(a, b) && forall i | 0 <= i < |rows| :: Waiting(a, rows[i]) == Waiting(b, rows[i])
    requires forall i | 0 <= i < |rows| && Waiting(a, rows[i]) ::
             rows[i] in b.runs && b.runs[rows[i]] == a.runs[rows[i]]
    ensures First(a, env, rows) == First(b, env, rows)
  {
    hide Fence;
    if rows != [] {
      if Waiting(a, rows[0]) { FenceElsewhere(a, b, env, a.runs[rows[0]]); }
      FirstElsewhere(a, b, env, rows[1..]);
    }
  }

  /** What dispatch leaves of a run. */
  function Dispatched(db: Db, first: nat, rows: seq<Id>, r: Id): RunState
    requires r in db.runs && first <= |rows|
  {
    if first < |rows| && r == rows[first] then Running
    else if r in rows[..first] && db.runs[r].state.Queued? then Blocked
    else db.runs[r].state
  }

  lemma MoveMeans(db: Db, rid: Id, state: RunState, reason: Option<Reason>)
    requires rid in db.runs
    ensures var b := Move(db, rid, state, reason);
            && b.runs.Keys == db.runs.Keys && SameAuthority(db, b) && b.runs[rid].state == state
            && forall r | r in db.runs && r != rid :: b.runs[r] == db.runs[r]
  {}

  lemma PastHead(rows: seq<Id>, first: nat)
    requires Distinct(rows) && 0 < first <= |rows|
    ensures forall r :: r in rows[..first] <==> r == rows[0] || r in rows[1..][..first - 1]
    ensures rows[0] !in rows[1..][..first - 1]
  {
    var before := rows[1..][..first - 1];
    assert rows[..first] == [rows[0]] + before;
    forall i | 0 <= i < |before| ensures before[i] != rows[0] { assert before[i] == rows[i + 1]; }
  }

  /** Dispatch hands out the first queued run, in the order of the rows, that may act; those queued
      before it are blocked, and no other run changes state. */
  lemma {:induction false} StartTakesFirst(db: Db, env: Env, rows: seq<Id>)
    requires Distinct(rows)
    ensures var (b, started) := StartFrom(db, env, rows);
            var first := First(db, env, rows);
            && started == (if first < |rows| then Some(rows[first]) else None)
            && b.runs.Keys == db.runs.Keys
            && forall r | r in db.runs :: b.runs[r].state == Dispatched(db, first, rows, r)
    decreases |rows|
  {
    hide Fence, Move;
    if rows != [] {
      var head, tail := rows[0], rows[1..];
      var first := First(db, env, rows);
      if !Waiting(db, head) {
        StartTakesFirst(db, env, tail);
        PastHead(rows, first);
      } else if Fence(db, env, db.runs[head]).Pass? {
        MoveMeans(db, head, Running, None);
        assert rows[..0] == [];
      } else {
        var code := Fence(db, env, db.runs[head]).error;
        var next := Move(db, head, Blocked, Some(Fault(code)));
        MoveMeans(db, head, Blocked, Some(Fault(code)));
        assert forall i | 0 <= i < |tail| :: tail[i] != head;
        FirstElsewhere(db, next, env, tail);
        StartTakesFirst(next, env, tail);
        assert first == 1 + First(next, env, tail);
        PastHead(rows, first);
      }
    }
  }

  // ---------------------------------------------------------------- ends of authority

  /** After a revocation nothing live relies on the grant, and its tool requests are empty. */
  lemma RevocationIsComplete(db: Db, gid: Id, generation: nat, cfg: Config, clock: int)
    requires Inv(db, cfg, clock) && RevokeGrant(db, gid, generation).Ok?
    ensures var b := RevokeGrant(db, gid, generation).value;
            && gid in b.grants && b.grants[gid].revoked && b.grants[gid].generation == generation + 1
            && (forall r | r in b.runs && Live(b.runs[r].state) :: !Uses(b.runs[r].input.grantRefs, gid))
            && (forall s | s in b.schedules && b.schedules[s].state.Enabled? :: !Uses(b.schedules[s].grantRefs, gid))
            && (forall t | t in b.tools && b.tools[t].grantRef.id == gid ::
                  b.tools[t].state.Withdrawn? && b.tools[t].claim.None? && b.tools[t].result.None?)
  {
    hide RevokeGrant, Inv, Advances, GrantsLive, Uses;
    RevokeGrantKeepsInv(db, gid, generation, cfg, clock);
    RevokedTables(db, gid, generation);
    var b := RevokeGrant(db, gid, generation).value;
    LiveOf(b, cfg, clock);
    forall r | r in b.runs && Live(b.runs[r].state) ensures !Uses(b.runs[r].input.grantRefs, gid) {
      assert RunLive(b, cfg, b.runs[r]);
      RevokedIsDead(b.grants, cfg, b.runs[r].input.workspaceId, b.runs[r].input.modelId, b.runs[r].input.grantRefs,
                    gid);
    }
    forall s | s in b.schedules && b.schedules[s].state.Enabled? ensures !Uses(b.schedules[s].grantRefs, gid) {
      assert ScheduleLive(b, cfg, b.schedules[s]);
      RevokedIsDead(b.grants, cfg, b.schedules[s].workspaceId, b.schedules[s].modelId, b.schedules[s].grantRefs, gid);
    }
  }

  lemma LiveOf(db: Db, cfg: Config, clock: int)
    requires Inv(db, cfg, clock)
    ensures LiveInv(db, cfg)
  {
    hide RowsOf, LogsInv, ExclusiveInv, LiveInv, HistoryInv, ChainInv, ProposalsInv, RequestsInv, RefreshesInv,
        SchedulesInv;
  }

  lemma RevokedIsDead(grants: map<Id, Grant>, cfg: Config, wid: Id, model: Id, refs: seq<GrantRef>, gid: Id)
    requires GrantsLive(grants, cfg, wid, model, refs) && gid in grants && grants[gid].revoked
    ensures !Uses(refs, gid)
  {
    assert forall i | 0 <= i < |refs| :: GrantLive(grants, cfg, wid, model, refs[i]);
  }

  lemma RevokedTables(db: Db, gid: Id, generation: nat)
    requires RevokeGrant(db, gid, generation).Ok?
    ensures var b := RevokeGrant(db, gid, generation).value;
            && gid in b.grants && b.grants[gid] == Retired(db.grants[gid]) && db.grants[gid].generation == generation
            && (forall t | t in b.tools && b.tools[t].grantRef.id == gid ::
                  b.tools[t].state.Withdrawn? && b.tools[t].claim.None? && b.tools[t].result.None?)
  {
    var swept := SweepRuns(db, RunsGranted(db, gid), Stop, GrantRevoked);
    SweepFrame(db, RunsGranted(db, gid), Stop, GrantRevoked);
    PausedSchedulesOnly(swept, SchedulesGranted(db, gid), GrantRevoked);
    hide SweepRuns, PauseSchedules;
  }

  /** No authority is left: no live run, no enabled schedule, no standing grant, no pending proposal,
      no open request. */
  ghost predicate Fenced(b: Db) {
    && (forall r | r in b.runs :: !Live(b.runs[r].state))
    && (forall s | s in b.schedules :: !b.schedules[s].state.Enabled?)
    && (forall g | g in b.grants :: b.grants[g].revoked)
    && (forall p | p in b.proposals :: !b.proposals[p].state.Pending?)
    && (forall t | t in b.tools :: b.tools[t].state.Withdrawn? && b.tools[t].claim.None? && b.tools[t].result.None?)
  }

  /** A change of model configuration leaves no authority behind. */
  lemma FenceLeavesNothing(db: Db, cfg: Config, clock: int)
    requires Inv(db, cfg, clock)
    ensures Fenced(FenceModelConfiguration(db))
  {
    hide Inv, SweepRuns, PauseSchedules, FenceModelConfiguration, Advances;
    FenceInStages(db);
    HaltKeepsInv(db, db.runs.Keys, ModelConfigurationChanged, EnabledSchedules(db), cfg, clock);
    var halted := PauseSchedules(SweepRuns(db, db.runs.Keys, Stop, ModelConfigurationChanged), EnabledSchedules(db),
                                 ModelConfigurationChanged);
    assert forall r | r in halted.runs :: !Live(halted.runs[r].state);
    forall s | s in halted.schedules ensures !halted.schedules[s].state.Enabled? {
      if halted.schedules[s].state.Enabled? { EnabledStands(db, s, cfg, clock); }
    }
    assert halted.tools == db.tools;
  }

  /** After a restart nothing is under way and no tool request is held. */
  lemma RecoverySettles(db: Db)
    ensures var b := Recover(db);
            && (forall r | r in b.runs :: !Working(b.runs[r].state) && !b.runs[r].state.Cancelling?)
            && (forall r | r in b.runs :: r in db.runs && (b.runs[r].state.Queued? <==> db.runs[r].state.Queued?))
            && (forall t | t in b.tools ::
                !b.tools[t].state.Open? && !b.tools[t].state.Claimed? && b.tools[t].claim.None?
                    && b.tools[t].result.None?)
  {
    hide Dropped, SweptLogs;
  }

  /** A pause stops the schedule and whatever it had started. */
  lemma PauseStops(db: Db, sid: Id, expected: nat)
    requires PauseSchedule(db, sid, expected).Ok?
    ensures var b := PauseSchedule(db, sid, expected).value;
            && sid in b.schedules && b.schedules[sid].state.Paused? && b.schedules[sid].nextRunAt.None?
            && b.schedules[sid].version == expected + 1
            && (forall r | r in b.runs && b.runs[r].schedule.Some? && b.runs[r].schedule.value.scheduleId == sid ::
                !Live(b.runs[r].state))
  {
    hide Dropped, SweptLogs;
  }

  /** The workspace is deleted, without history, and nothing in it is live. */
  ghost predicate Erased(b: Db, wid: Id) {
    && wid in b.workspaces && b.workspaces[wid].deleted && b.workspaces[wid].history == []
    && (forall r | r in b.runs && Live(b.runs[r].state) :: b.runs[r].input.workspaceId != wid)
    && (forall s | s in b.schedules && b.schedules[s].state.Enabled? :: b.schedules[s].workspaceId != wid)
  }

  /** Deleting a workspace erases its history and stops everything in it. */
  lemma DeletionStopsWork(db: Db, wid: Id, cfg: Config, clock: int)
    requires Inv(db, cfg, clock)
    ensures Erased(DeleteWorkspace(db, wid), wid)
  {
    hide Inv, Advances, DeleteWorkspace, GrantsLive;
    DeleteWorkspaceKeepsInv(db, wid, cfg, clock);
    BuriedWorkspace(db, wid);
    var b := DeleteWorkspace(db, wid);
    LiveOf(b, cfg, clock);
    forall r | r in b.runs && Live(b.runs[r].state) ensures b.runs[r].input.workspaceId != wid {
      assert RunLive(b, cfg, b.runs[r]);
    }
    forall s | s in b.schedules && b.schedules[s].state.Enabled? ensures b.schedules[s].workspaceId != wid {
      assert ScheduleLive(b, cfg, b.schedules[s]);
    }
  }

  lemma BuriedWorkspace(db: Db, wid: Id)
    ensures var b := DeleteWorkspace(db, wid);
            wid in b.workspaces && b.workspaces[wid].deleted && b.workspaces[wid].history == []
  {
    hide SweepRuns, PauseSchedules;
  }

  // ---------------------------------------------------------------- revisions

  /** Rolling back a rename restores the title and the spec, under a new revision. */
  lemma RollbackUndoesRename(db: Db, iid: Id, expected: nat, title: string, cfg: Config, clock: int)
    requires Inv(db, cfg, clock) && Rename(db, iid, expected, title).Ok?
    ensures var renamed := Rename(db, iid, expected, title).value;
            var back := Rollback(renamed, iid, expected + 1, expected);
            && back.Ok? && iid in back.value.interfaces && iid in db.interfaces
            && back.value.interfaces[iid].title == db.interfaces[iid].title
            && back.value.interfaces[iid].spec == db.interfaces[iid].spec
            && back.value.interfaces[iid].revision == expected + 2
            && iid in renamed.interfaces && renamed.interfaces[iid].title == title
               && renamed.interfaces[iid].revision == expected + 1
  {
    hide Inv, ChainInv, Rename, Rollback;
    ChainOf(db, cfg, clock);
    RenameIs(db, iid, expected, title);
    var renamed := Rename(db, iid, expected, title).value;
    assert (iid, expected) in db.revisions;
    RollbackIs(renamed, iid, expected + 1, expected);
  }

  lemma RenameIs(db: Db, iid: Id, expected: nat, title: string)
    requires Rename(db, iid, expected, title).Ok?
    ensures iid in db.interfaces && !db.interfaces[iid].deleted && db.interfaces[iid].revision == expected
            && expected >= 1
    ensures var b := Rename(db, iid, expected, title).value;
            && iid in b.interfaces && !b.interfaces[iid].deleted
            && b.interfaces[iid].title == title && b.interfaces[iid].revision == expected + 1
            && forall k | k in db.revisions && k != (iid, expected + 1) ::
               k in b.revisions && b.revisions[k] == db.revisions[k]
  {
    hide H.IsText;
  }

  lemma RollbackIs(db: Db, iid: Id, expected: nat, target: nat)
    requires iid in db.interfaces && !db.interfaces[iid].deleted && db.interfaces[iid].revision == expected >= 1
    requires target >= 1 && (iid, target) in db.revisions
    ensures var b := Rollback(db, iid, expected, target);
            && b.Ok? && iid in b.value.interfaces && b.value.interfaces[iid].revision == expected + 1
            && b.value.interfaces[iid].title == db.revisions[(iid, target)].title
            && b.value.interfaces[iid].spec == db.revisions[(iid, target)].spec
  {}

  lemma ChainOf(db: Db, cfg: Config, clock: int)
    requires Inv(db, cfg, clock)
    ensures ChainInv(db.interfaces, db.revisions)
    ensures forall i | i in db.interfaces ::
              && (i, db.interfaces[i].revision) in db.revisions
              && db.revisions[(i, db.interfaces[i].revision)].title == db.interfaces[i].title
              && db.revisions[(i, db.interfaces[i].revision)].spec == db.interfaces[i].spec
  {
    hide RowsOf, LogsInv, ExclusiveInv, LiveInv, HistoryInv, ProposalsInv, RequestsInv, RefreshesInv, SchedulesInv;
  }

  /** Publication is compare-and-swap: of two proposals against the same revision of the same
      interface, once one is published the other never is, whether an operator or the end of a
      scheduled run publishes either. */
  lemma OnlyOnePublishes(db: Db, env: Env, later: Env, p: Id, q: Id, expected: nat, scheduled: bool, other: bool,
                         newId: Id, otherId: Id)
    requires Publish(db, env, p, expected, scheduled, newId).Ok? && p != q && q in db.proposals && p in db.proposals
    requires db.proposals[p].interfaceId.Some? && db.proposals[q].interfaceId == db.proposals[p].interfaceId
    requires db.proposals[q].expectedRevision == db.proposals[p].expectedRevision
    ensures Publish(Publish(db, env, p, expected, scheduled, newId).value.0, later, q, expected, other, otherId).Err?
  {
    hide PublishSource, Emit, Publish;
    PublishMeans(db, env, p, expected, scheduled, newId);
    MarkedElsewhere(db, p, newId);
    var b := Publish(db, env, p, expected, scheduled, newId).value.0;
    var iid := db.proposals[p].interfaceId.value;
    assert b.interfaces == Marked(db, p, newId).interfaces && b.proposals == Marked(db, p, newId).proposals by {
      if db.proposals[p].source.Some? && db.proposals[p].source.value in db.runs {
        EmitElsewhere(Marked(db, p, newId), db.proposals[p].source.value, InterfaceUpdated(iid, expected + 1));
      }
    }
    assert b.interfaces[iid].revision == expected + 1;
    if Publish(b, later, q, expected, other, otherId).Ok? {
      PublishMeans(b, later, q, expected, other, otherId);
      assert false;
    }
  }

  lemma EmitElsewhere(db: Db, rid: Id, kind: EventKind)
    requires rid in db.runs
    ensures Emit(db, rid, kind).interfaces == db.interfaces && Emit(db, rid, kind).proposals == db.proposals
    ensures Emit(db, rid, kind).tools == db.tools && Emit(db, rid, kind).runs.Keys == db.runs.Keys
  {}

  // ---------------------------------------------------------------- tool requests

  /** While a lease runs, nobody else gets one. */
  lemma LeaseIsExclusive(db: Db, env: Env, later: Env, rid: Id, tid: Id, token: Id, other: Id, runner: Id)
    requires ClaimRequest(db, env, rid, tid, token).Ok?
    ensures var b := ClaimRequest(db, env, rid, tid, token).value;
            && tid in b.tools && b.tools[tid].claimUntil <= env.now + CLAIM_LEASE
            && (later.now < b.tools[tid].claimUntil ==> ClaimRequest(b, later, runner, tid, other).Err?)
  {
    hide Fence;
  }

  /** A result is taken once: the very same delivery again changes nothing, another one is refused. */
  lemma DeliveryIsIdempotent(db: Db, env: Env, later: Env, rid: Id, tid: Id, body: ResultBody, again: ResultBody)
    requires DeliverResult(db, env, rid, tid, body).Ok?
    requires CheckRequest(DeliverResult(db, env, rid, tid, body).value, later, rid, tid).Ok?
    ensures var b := DeliverResult(db, env, rid, tid, body).value;
            DeliverResult(b, later, rid, tid, again) == (if again == body then Ok(b) else Err(StaleClaim))
  {
    DeliveredIs(db, env, rid, tid, body);
    hide Fence, Emit, Move, CheckRequest;
    var b := DeliverResult(db, env, rid, tid, body).value;
    CheckedIs(b, later, rid, tid);
    CheckedIs(db, env, rid, tid);
  }

  lemma CheckedIs(db: Db, env: Env, rid: Id, tid: Id)
    requires CheckRequest(db, env, rid, tid).Ok?
    ensures tid in db.tools && CheckRequest(db, env, rid, tid).value == db.tools[tid] && rid in db.runs
  {
    hide Fence;
  }

  lemma DeliveredIs(db: Db, env: Env, rid: Id, tid: Id, body: ResultBody)
    requires DeliverResult(db, env, rid, tid, body).Ok?
    ensures var b := DeliverResult(db, env, rid, tid, body).value;
            && CheckRequest(db, env, rid, tid).Ok? && tid in b.tools
            && b.tools[tid].state.Completed? && b.tools[tid].digest == Some(body)
               && b.tools[tid].claim == Some(body.claimToken)
  {
    hide Fence, CheckRequest, Emit, Move;
    if CheckRequest(db, env, rid, tid).Ok? {
      CheckedIs(db, env, rid, tid);
      var stored := db.(tools := db.tools[tid := db.tools[tid].(state := Completed, result := Some(body),
                                                                digest := Some(body))]);
      EmitElsewhere(stored, rid, ToolResult(tid, body.succeeded));
      MoveElsewhere(Emit(stored, rid, ToolResult(tid, body.succeeded)), rid, Running, None);
    }
  }

  lemma MoveElsewhere(db: Db, rid: Id, state: RunState, reason: Option<Reason>)
    requires rid in db.runs
    ensures Move(db, rid, state, reason).tools == db.tools
  {}

  // ---------------------------------------------------------------- the end of a run

  /** What a success adds to a run's log: for a scheduled run the revision it published, then what
      the worker reported. */
  function SuccessEvents(db: Db, run: Run, text: string): seq<EventKind> {
    (if run.schedule.Some? && run.schedule.value.scheduleId in db.schedules
     then [InterfaceUpdated(db.schedules[run.schedule.value.scheduleId].interfaceId,
                            run.schedule.value.targetRevision + 1)]
     else [])
    + [AssistantMessage(text), StateChanged(Succeeded, None)]
  }

  /** A success is recorded as it was reported, and closes the run's tool requests. */
  lemma SuccessIsRecorded(db: Db, env: Env, rid: Id, result: Option<WorkerResult>, failure: Option<Code>, newId: Id)
    requires Inv(db, env.cfg, env.now) && rid in db.runs && Live(db.runs[rid].state)
    requires Complete(db, env, rid, result, failure, newId).Ok?
    ensures var b := Finish(db, env, rid, result, failure, newId);
            && b.Ok? && rid in b.value.runs && rid in b.value.events && rid in db.events && result.Some?
            && var text := result.value.finalResponse;
            && b.value.events[rid] ==
               db.events[rid] + V.Numbered(db.runs[rid].lastSeq, SuccessEvents(db, db.runs[rid], text))
            && b.value.runs[rid].finalMessage == Some(text) && b.value.runs[rid].state.Succeeded?
            && RequestsClosed(b.value, rid)
  {
    hide Inv, AcceptResult, Complete, CloseRequests, Succeed, RequestsClosed;
    LogOf(db, rid, env.cfg, env.now);
    if db.runs[rid].schedule.Some? {
      RefreshLog(db, env, rid, result, failure, newId);
    } else {
      OperatorCommits(db, env, rid, result, failure, newId);
      var text := result.value.finalResponse;
      SucceedLog(db, rid, text);
      var n := db.runs[rid].lastSeq;
      assert V.Numbered(n, SuccessEvents(db, db.runs[rid], text)) ==
             [Event(n + 1, AssistantMessage(text)), Event(n + 2, StateChanged(Succeeded, None))];
    }
    B.CloseElsewhere(Complete(db, env, rid, result, failure, newId).value, rid);
    ClosedAre(Complete(db, env, rid, result, failure, newId).value, rid);
  }

  /** The log of a scheduled success, which publishes through a separately loaded run. */
  lemma RefreshLog(db: Db, env: Env, rid: Id, result: Option<WorkerResult>, failure: Option<Code>, newId: Id)
    requires Inv(db, env.cfg, env.now) && rid in db.runs && rid in db.events && db.runs[rid].schedule.Some?
    requires Complete(db, env, rid, result, failure, newId).Ok?
    ensures var b := Complete(db, env, rid, result, failure, newId).value;
            && rid in b.runs && rid in b.events && result.Some?
            && var text := result.value.finalResponse;
            && b.events[rid] == db.events[rid] + V.Numbered(db.runs[rid].lastSeq, SuccessEvents(db, db.runs[rid], text))
            && b.runs[rid].finalMessage == Some(text) && b.runs[rid].state.Succeeded?
  {
    hide Inv, AcceptResult, Complete, Succeed, Marked, PendingOf, RevisionOf;
    RefreshMeans(db, env, rid, result, failure, newId);
    var pid := Only(PendingOf(db, rid));
    RefreshForm(db, env, rid, pid, result, failure, newId);
    MarkedElsewhere(db, pid, newId);
    var link, text := db.runs[rid].schedule.value, result.value.finalResponse;
    var kind := InterfaceUpdated(db.schedules[link.scheduleId].interfaceId, link.targetRevision + 1);
    var told := Emit(Marked(db, pid, newId), rid, kind);
    SucceedLog(told, rid, text);
    var n := db.runs[rid].lastSeq;
    assert told.events[rid] == db.events[rid] + [Event(n + 1, kind)] && told.runs[rid].lastSeq == n + 1;
    assert V.Numbered(n, SuccessEvents(db, db.runs[rid], text)) ==
           [Event(n + 1, kind), Event(n + 2, AssistantMessage(text)), Event(n + 3, StateChanged(Succeeded, None))];
  }

  lemma SucceedLog(db: Db, rid: Id, text: string)
    requires rid in db.runs && rid in db.events
    ensures var b := Succeed(db, rid, text);
            && rid in b.events && rid in b.runs && b.runs[rid].finalMessage == Some(text)
               && b.runs[rid].state.Succeeded?
            && b.events[rid] == db.events[rid]
               + [Event(db.runs[rid].lastSeq + 1, AssistantMessage(text)),
                  Event(db.runs[rid].lastSeq + 2, StateChanged(Succeeded, None))]
  {}

  /** Nothing of a run's tool requests is left to act on. */
  ghost predicate RequestsClosed(db: Db, rid: Id) {
    forall t | t in db.tools && db.tools[t].runId == rid ::
      (db.tools[t].state.Completed? || db.tools[t].state.Withdrawn?) && db.tools[t].claim.None?
          && db.tools[t].result.None?
  }

  lemma ClosedAre(db: Db, rid: Id)
    ensures RequestsClosed(CloseRequests(db, rid), rid)
  {}

  /** A run that fails keeps nothing it had in preparation: its state tells blocked from failed, its
      pending proposals and tool requests are gone, and histories and interfaces are untouched. */
  lemma FailureKeepsNothing(db: Db, env: Env, rid: Id, result: Option<WorkerResult>, failure: Option<Code>, newId: Id)
    requires rid in db.runs && Live(db.runs[rid].state) && Complete(db, env, rid, result, failure, newId).Err?
    ensures var code := Complete(db, env, rid, result, failure, newId).error;
            var b := Finish(db, env, rid, result, failure, newId);
            && b.Ok? && rid in b.value.runs
            && b.value.runs[rid].state ==
               (if code.DeadlineExceeded? || code.GrantDenied? || code.DeviceUnavailable? then Blocked else Failed)
            && PendingOf(b.value, rid) == {} && RequestsClosed(b.value, rid)
            && b.value.workspaces == db.workspaces && b.value.interfaces == db.interfaces
               && b.value.revisions == db.revisions
  {
    hide Complete, CloseRequests, DropProposals;
    var code := Complete(db, env, rid, result, failure, newId).error;
    DropElsewhere(db, {rid});
    var dropped := DropProposals(db, {rid});
    assert PendingOf(dropped, rid) == {} by { DroppedNone(db, rid); }
    var failed := Move(dropped, rid, FailureState(code), Some(Fault(code)));
    var told := Emit(failed, rid, ErrorRaised(code));
    B.CloseElsewhere(told, rid);
    ClosedAre(told, rid);
    hide RequestsClosed;
    assert PendingOf(told, rid) == PendingOf(dropped, rid);
  }

  lemma DroppedNone(db: Db, rid: Id)
    ensures PendingOf(DropProposals(db, {rid}), rid) == {}
  {}

  /** What a run had been granted at admission: its workspace's committed history for an operator, none
      for a schedule, the schedule's version, and the revision it is to replace. */
  lemma AdmissionCaptures(db: Db, env: Env, value: RunInput, rid: Id, schedule: Option<(Id, Schedule)>, clock: int)
    requires Inv(db, env.cfg, clock) && CreateRun(db, env, value, rid, schedule).1.Pass?
    ensures var b := CreateRun(db, env, value, rid, schedule).0;
            && rid !in db.runs && rid in b.runs && value.workspaceId in b.workspaces
            && b.runs[rid].state.Queued? && b.runs[rid].input == value && b.runs[rid].createdAt == env.now
            && b.runRows == db.runRows + [rid]
            && (schedule.None? ==>
                  && b.workspaces[value.workspaceId].admitted
                  && b.runs[rid].history == b.workspaces[value.workspaceId].history)
            && (schedule.Some? ==>
                  && b.runs[rid].history == [] && schedule.value.1.interfaceId in db.interfaces
                  && b.runs[rid].schedule == Some(ScheduleLink(schedule.value.0, schedule.value.1.version,
                                                               db.interfaces[schedule.value.1.interfaceId].revision)))
  {
    hide Inv, TouchWorkspace, H.RuntimeHistory, H.ValidImport, Placeable;
    var touched := TouchWorkspace(db, value.workspaceId, value.importHistory, schedule.None?);
    TouchKeepsInv(db, value.workspaceId, value.importHistory, schedule.None?, env.cfg, clock);
    if schedule.None? { CapturesAs(touched.value, value.workspaceId, env.cfg, clock); }
  }

  lemma CapturesAs(db: Db, wid: Id, cfg: Config, clock: int)
    requires Inv(db, cfg, clock) && wid in db.workspaces
    ensures H.RuntimeHistory(cfg.codec, db.workspaces[wid].history) == Some(db.workspaces[wid].history)
  {
    HistoryOf(db, wid, cfg, clock);
  }

  // ---------------------------------------------------------------- counting

  lemma EmitCounts(db: Db, rid: Id, kind: EventKind, r: Id)
    requires rid in db.runs && r in db.runs
    ensures var b := Emit(db, rid, kind);
            r in b.runs && b.runs[r].toolCalls == db.runs[r].toolCalls
                && b.runs[r].modelRequests == db.runs[r].modelRequests
  {}

  lemma ProposeCounts(db: Db, env: Env, v: ProposalInput, source: Option<Id>, pid: Id, r: Id)
    requires Propose(db, env, v, source, pid).Ok? && r in db.runs
    ensures var b := Propose(db, env, v, source, pid).value; r in b.runs && b.runs[r].toolCalls == db.runs[r].toolCalls
  {
    hide ProposalScope, ProposalTarget, Emit;
    var added := AddProposal(TouchWorkspace(db, v.workspaceId, [], false).value, v, source, pid);
    if source.Some? && source.value in added.runs { EmitCounts(added, source.value, InterfaceProposed(pid), r); }
  }

  lemma ScheduleCounts(db: Db, env: Env, v: ScheduleInput, source: Option<Id>, sid: Id, r: Id)
    requires CreateSchedule(db, env, v, source, sid).Ok? && r in db.runs
    ensures var b := CreateSchedule(db, env, v, source, sid).value;
            r in b.runs && b.runs[r].toolCalls == db.runs[r].toolCalls
  {
    hide ScheduleScope, ValidSchedule, CheckGrants;
  }

  lemma GoogleCounts(db: Db, env: Env, rid: Id, tool: GoogleTool, windowValid: bool, newId: Id)
    requires rid in db.runs && RequestGoogle(db, env, rid, tool, windowValid, newId).Ok?
    ensures var b := RequestGoogle(db, env, rid, tool, windowValid, newId).value;
            rid in b.runs && b.runs[rid].toolCalls == db.runs[rid].toolCalls && b.runs[rid].state.WaitingForDevice?
  {
    hide CheckGrants, GrantsOffering;
  }

  /** Every tool call that does anything is counted, once, whatever the tool did. */
  lemma CallIsCounted(db: Db, env: Env, rid: Id, args: ToolArgs, newId: Id)
    requires CallTool(db, env, rid, args, newId).Ok?
    ensures var b := CallTool(db, env, rid, args, newId).value;
            rid in db.runs && rid in b.runs && b.runs[rid].toolCalls == db.runs[rid].toolCalls + 1
  {
    hide Fence, Propose, CreateSchedule, RequestGoogle;
    var run := db.runs[rid];
    var counted := PutRun(db, rid, run.(toolCalls := run.toolCalls + 1));
    match args {
      case ProposeInterface(target, expected, title, spec) =>
        ProposeCounts(counted, env, ProposalInput(run.input.workspaceId, target, expected, title, spec), Some(rid),
                      newId, rid);
      case CreateScheduleTool(v) =>
        ScheduleCounts(counted, env,
                       v.(workspaceId := run.input.workspaceId, modelId := run.input.modelId,
                          grantRefs := run.input.grantRefs),
                       Some(rid), newId, rid);
      case ReadGoogle(tool, windowValid) => GoogleCounts(counted, env, rid, tool, windowValid, newId);
      case _ =>
    }
  }

  /** A model request is counted against the run and the day before it leaves, or refused. */
  lemma ReservationIsCounted(db: Db, env: Env, rid: Id)
    requires ReserveModelRequest(db, env, rid).Ok?
    ensures var b := ReserveModelRequest(db, env, rid).value;
            var day := env.now / 86_400_000;
            && rid in db.runs && rid in b.runs && b.runs[rid].modelRequests == db.runs[rid].modelRequests + 1
            && day in b.usage && b.usage[day] == (if day in db.usage then db.usage[day] else 0) + 1
            && (forall d | d in db.usage && d != day :: d in b.usage && b.usage[d] == db.usage[d])
  {
    hide Fence;
  }
}
