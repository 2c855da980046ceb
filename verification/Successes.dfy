/** A run succeeds only when it is ended as a success: no other step of the engine makes one succeed. */
module Successes {
  import opened Wrappers
  import opened Engine
  import opened Invariant
  import opened RunSteps
  import opened Sweeps
  import opened System
  import H = History
  import C = Cron

  ghost predicate NoneSucceed(a: Db, b: Db) {
    forall r | r in b.runs && b.runs[r].state.Succeeded? :: r in a.runs && a.runs[r].state.Succeeded?
  }

  lemma Chain(a: Db, m: Db, b: Db)
    requires NoneSucceed(a, m) && NoneSucceed(m, b)
    ensures NoneSucceed(a, b)
  {}

  // ---------------------------------------------------------------- the common steps

  lemma EmitNone(db: Db, rid: Id, kind: EventKind)
    requires rid in db.runs
    ensures NoneSucceed(db, Emit(db, rid, kind))
  {}

  lemma MoveNone(db: Db, rid: Id, state: RunState, reason: Option<Reason>)
    requires rid in db.runs && !state.Succeeded?
    ensures NoneSucceed(db, Move(db, rid, state, reason))
  {}

  lemma StopNone(db: Db, victims: set<Id>, sweep: Sweep, reason: Reason)
    ensures NoneSucceed(db, SweepRuns(db, victims, sweep, reason))
  {}

  lemma HoldNone(db: Db, sids: set<Id>, reason: Reason)
    ensures NoneSucceed(db, PauseSchedules(db, sids, reason))
  {
    hide SweepRuns, PauseSchedules, NoneSucceed;
    PauseForm(db, sids, reason);
    StopNone(PausedOnly(db, sids, reason), RunsOf(db, sids), Stop, reason);
    SameNone(db, PausedOnly(db, sids, reason));
    Chain(db, PausedOnly(db, sids, reason), PauseSchedules(db, sids, reason));
  }

  lemma HaltNone(db: Db, runs: set<Id>, sids: set<Id>, reason: Reason)
    ensures NoneSucceed(db, PauseSchedules(SweepRuns(db, runs, Stop, reason), sids, reason))
  {
    hide SweepRuns, PauseSchedules;
    StopNone(db, runs, Stop, reason);
    HoldNone(SweepRuns(db, runs, Stop, reason), sids, reason);
  }

  lemma TouchNone(db: Db, wid: Id, imported: seq<H.Message>, admission: bool)
    requires TouchWorkspace(db, wid, imported, admission).Ok?
    ensures TouchWorkspace(db, wid, imported, admission).value.runs == db.runs
  {}

  lemma AddNone(db: Db, rid: Id, run: Run)
    ensures NoneSucceed(db, AddRun(db, rid, run))
  {}

  lemma CreateRunNone(db: Db, env: Env, value: RunInput, rid: Id, schedule: Option<(Id, Schedule)>)
    ensures NoneSucceed(db, CreateRun(db, env, value, rid, schedule).0)
  {
    hide TouchWorkspace, Placeable, Admissible, AddRun, NewRun, H.RuntimeHistory, NoneSucceed;
    SameNone(db, db);
    var touched := TouchWorkspace(db, value.workspaceId, value.importHistory, schedule.None?);
    if touched.Ok? {
      var placed := touched.value;
      TouchNone(db, value.workspaceId, value.importHistory, schedule.None?);
      SameNone(db, placed);
      forall run: Run ensures NoneSucceed(db, AddRun(placed, rid, run)) {
        AddNone(placed, rid, run);
        Chain(db, placed, AddRun(placed, rid, run));
      }
    }
  }

  lemma SameNone(a: Db, b: Db)
    requires b.runs == a.runs
    ensures NoneSucceed(a, b)
  {}

  // ---------------------------------------------------------------- requests

  lemma DeleteWorkspaceNone(db: Db, wid: Id)
    ensures NoneSucceed(db, DeleteWorkspace(db, wid))
  {
    hide SweepRuns, PauseSchedules;
    HaltNone(db, RunsIn(db, wid), SchedulesIn(SweepRuns(db, RunsIn(db, wid), Stop, WorkspaceDeleted), wid),
             WorkspaceDeleted);
    HaltNone(db, RunsIn(db, wid), SchedulesIn(db, wid), WorkspaceDeleted);
  }

  lemma DeleteInterfaceNone(db: Db, iid: Id, expected: nat)
    requires DeleteInterface(db, iid, expected).Ok?
    ensures NoneSucceed(db, DeleteInterface(db, iid, expected).value)
  {
    hide SweepRuns, PauseSchedules;
    HaltNone(db, RunsUsing(db, iid), SchedulesTargeting(db, iid), InterfaceDeleted);
  }

  lemma RevokeGrantNone(db: Db, gid: Id, generation: nat)
    requires RevokeGrant(db, gid, generation).Ok?
    ensures NoneSucceed(db, RevokeGrant(db, gid, generation).value)
  {
    hide SweepRuns, PauseSchedules;
    HaltNone(db, RunsGranted(db, gid), SchedulesGranted(db, gid), GrantRevoked);
  }

  lemma FenceNone(db: Db)
    ensures NoneSucceed(db, FenceModelConfiguration(db))
  {
    hide SweepRuns, PauseSchedules;
    var enabled := set s | s in db.schedules && !db.schedules[s].deleted && db.schedules[s].state.Enabled?;
    HaltNone(db, db.runs.Keys, enabled, ModelConfigurationChanged);
  }

  lemma ProposeNone(db: Db, env: Env, v: ProposalInput, source: Option<Id>, pid: Id)
    requires Engine.Propose(db, env, v, source, pid).Ok?
    ensures NoneSucceed(db, Engine.Propose(db, env, v, source, pid).value)
  {
    hide TouchWorkspace, ProposalScope, ProposalTarget, Emit;
    TouchNone(db, v.workspaceId, [], false);
    var added := AddProposal(TouchWorkspace(db, v.workspaceId, [], false).value, v, source, pid);
    if source.Some? && source.value in added.runs { EmitNone(added, source.value, InterfaceProposed(pid)); }
  }

  lemma PublishNone(db: Db, env: Env, pid: Id, expected: nat, scheduled: bool, newId: Id)
    requires Engine.Publish(db, env, pid, expected, scheduled, newId).Ok?
    ensures NoneSucceed(db, Engine.Publish(db, env, pid, expected, scheduled, newId).value.0)
  {
    hide PublishSource, Emit;
    forall m: Db, rid, kind | m.runs == db.runs && rid in m.runs ensures NoneSucceed(db, Emit(m, rid, kind)) {
      EmitNone(m, rid, kind);
    }
  }

  lemma CreateScheduleNone(db: Db, env: Env, v: ScheduleInput, source: Option<Id>, sid: Id)
    requires CreateSchedule(db, env, v, source, sid).Ok?
    ensures NoneSucceed(db, CreateSchedule(db, env, v, source, sid).value)
  {
    hide TouchWorkspace, ScheduleScope, ValidSchedule, CheckGrants, C.Parse, GetInterface;
    TouchNone(db, v.workspaceId, [], false);
  }

  lemma DeliverNone(db: Db, env: Env, rid: Id, tid: Id, body: ResultBody)
    requires DeliverResult(db, env, rid, tid, body).Ok?
    ensures NoneSucceed(db, DeliverResult(db, env, rid, tid, body).value)
  {
    hide CheckRequest;
  }

  lemma OnRunsNone(db: Db, env: Env, route: Route, key: Id, body: Body, newId: Id)
    requires OnRuns(db, env, route, key, body, newId).Ok?
    ensures NoneSucceed(db, OnRuns(db, env, route, key, body, newId).value.0)
  {
    hide CreateRun, CancelRun, ClaimRequest, DeliverResult, NoneSucceed;
    match (route, body) {
      case (Runs, RunBody(v)) => CreateRunNone(db, env, v, key, None);
      case (CancelAt(rid), Nothing) => CancelNone(db, rid);
      case (ClaimAt(rid), Claiming(tid)) => ClaimNone(db, env, rid, tid, newId);
      case (ResultAt(rid), Delivering(tid, result)) => DeliverNone(db, env, rid, tid, result);
      case _ =>
    }
  }

  lemma OnAuthorityNone(db: Db, env: Env, route: Route, body: Body, newId: Id)
    requires OnAuthority(db, env, route, body, newId).Ok?
    ensures NoneSucceed(db, OnAuthority(db, env, route, body, newId).value.0)
  {
    hide DeleteWorkspace, CreateGrant, RevokeGrant, NoneSucceed;
    match (route, body) {
      case (DeleteWorkspaceAt(wid), Nothing) => DeleteWorkspaceNone(db, wid);
      case (Grants, GrantBody(v)) => GrantNone(db, env, v, newId);
      case (RevokeAt(gid), Expecting(generation)) => RevokeGrantNone(db, gid, generation);
      case _ =>
    }
  }

  lemma OnProposalsNone(db: Db, env: Env, route: Route, body: Body, newId: Id)
    requires OnProposals(db, env, route, body, newId).Ok?
    ensures NoneSucceed(db, OnProposals(db, env, route, body, newId).value.0)
  {
    hide Engine.Propose, Engine.Publish, NoneSucceed;
    match (route, body) {
      case (Propose, Proposing(v)) => ProposeNone(db, env, v, None, newId);
      case (Publish, Publishing(pid, expected)) => PublishNone(db, env, pid, expected, false, newId);
      case _ =>
    }
  }

  lemma OnInterfacesNone(db: Db, route: Route, body: Body)
    requires OnInterfaces(db, route, body).Ok?
    ensures NoneSucceed(db, OnInterfaces(db, route, body).value.0)
  {
    hide Rename, Rollback, DeleteInterface, NoneSucceed;
    match (route, body) {
      case (RenameAt(iid), Renaming(expected, title)) => RenameNone(db, iid, expected, title);
      case (RollbackAt(iid), RollingBack(expected, target)) => RollbackNone(db, iid, expected, target);
      case (DeleteInterfaceAt(iid), Expecting(expected)) => DeleteInterfaceNone(db, iid, expected);
      case _ =>
    }
  }

  lemma OnSchedulesNone(db: Db, env: Env, route: Route, body: Body, newId: Id)
    requires OnSchedules(db, env, route, body, newId).Ok?
    ensures NoneSucceed(db, OnSchedules(db, env, route, body, newId).value.0)
  {
    hide CreateSchedule, EnableSchedule, PauseSchedules, DeleteSchedule, NoneSucceed;
    match (route, body) {
      case (Schedules, Scheduling(v)) => CreateScheduleNone(db, env, v, None, newId);
      case (EnableAt(sid), Consenting(expected, consent)) => EnableNone(db, env, sid, expected, consent);
      case (PauseAt(sid), Expecting(expected)) => HoldNone(db, {sid}, OperatorPaused);
      case (DeleteScheduleAt(sid), Expecting(expected)) => DeleteScheduleNone(db, sid, expected);
      case _ =>
    }
  }

  lemma DispatchNone(db: Db, env: Env, route: Route, key: Id, body: Body, newId: Id)
    requires Dispatch(db, env, route, key, body, newId).Ok?
    ensures NoneSucceed(db, Dispatch(db, env, route, key, body, newId).value.0)
  {
    hide OnRuns, OnAuthority, OnProposals, OnInterfaces, OnSchedules, NoneSucceed;
    match route {
      case Runs | CancelAt(_) | ClaimAt(_) | ResultAt(_) => OnRunsNone(db, env, route, key, body, newId);
      case DeleteWorkspaceAt(_) | Grants | RevokeAt(_) => OnAuthorityNone(db, env, route, body, newId);
      case Propose | Publish => OnProposalsNone(db, env, route, body, newId);
      case RenameAt(_) | RollbackAt(_) | DeleteInterfaceAt(_) => OnInterfacesNone(db, route, body);
      case Schedules | EnableAt(_) | PauseAt(_) | DeleteScheduleAt(_) => OnSchedulesNone(db, env, route, body, newId);
    }
  }

  lemma CancelNone(db: Db, rid: Id)
    ensures NoneSucceed(db, CancelRun(db, rid))
  {
    hide SweepRuns;
    StopNone(db, {rid}, Stop, OperatorCancelled);
  }

  lemma DeleteScheduleNone(db: Db, sid: Id, expected: nat)
    requires DeleteSchedule(db, sid, expected).Ok?
    ensures NoneSucceed(db, DeleteSchedule(db, sid, expected).value)
  {
    hide PauseSchedules;
    HoldNone(db, {sid}, ScheduleDeleted);
  }

  // The requests that do not touch the runs.

  lemma GrantNone(db: Db, env: Env, v: GrantInput, gid: Id)
    requires CreateGrant(db, env, v, gid).Ok?
    ensures NoneSucceed(db, CreateGrant(db, env, v, gid).value)
  {
    hide TouchWorkspace;
    TouchNone(db, v.workspaceId, [], false);
  }

  lemma ClaimNone(db: Db, env: Env, rid: Id, tid: Id, token: Id)
    requires ClaimRequest(db, env, rid, tid, token).Ok?
    ensures NoneSucceed(db, ClaimRequest(db, env, rid, tid, token).value)
  {
    hide CheckRequest;
  }

  lemma RenameNone(db: Db, iid: Id, expected: nat, title: string)
    requires Rename(db, iid, expected, title).Ok?
    ensures NoneSucceed(db, Rename(db, iid, expected, title).value)
  {
    hide H.IsText;
  }

  lemma RollbackNone(db: Db, iid: Id, expected: nat, target: nat)
    requires Rollback(db, iid, expected, target).Ok?
    ensures NoneSucceed(db, Rollback(db, iid, expected, target).value)
  {}

  lemma EnableNone(db: Db, env: Env, sid: Id, expected: nat, consent: Consent)
    requires EnableSchedule(db, env, sid, expected, consent).Ok?
    ensures NoneSucceed(db, EnableSchedule(db, env, sid, expected, consent).value)
  {
    hide CheckGrants, C.NextDue;
  }

  // ---------------------------------------------------------------- the supervisor's calls

  lemma {:induction false} StartNone(db: Db, env: Env, rows: seq<Id>)
    ensures NoneSucceed(db, StartFrom(db, env, rows).0)
    decreases |rows|
  {
    hide Fence, Move, NoneSucceed;
    SameNone(db, db);
    if rows != [] {
      var head, tail := rows[0], rows[1..];
      StartNone(db, env, tail);
      if head in db.runs && db.runs[head].state.Queued? {
        match Fence(db, env, db.runs[head]) {
          case Pass => MoveNone(db, head, Running, None);
          case Fail(code) =>
            var next := Move(db, head, Blocked, Some(Fault(code)));
            MoveNone(db, head, Blocked, Some(Fault(code)));
            StartNone(next, env, tail);
            Chain(db, next, StartFrom(next, env, tail).0);
        }
      }
    }
  }

  lemma GoogleNone(db: Db, env: Env, rid: Id, tool: GoogleTool, windowValid: bool, newId: Id)
    requires rid in db.runs && RequestGoogle(db, env, rid, tool, windowValid, newId).Ok?
    ensures NoneSucceed(db, RequestGoogle(db, env, rid, tool, windowValid, newId).value)
  {
    hide CheckGrants, GrantsOffering;
  }

  lemma CallNone(db: Db, env: Env, rid: Id, args: ToolArgs, newId: Id)
    requires CallTool(db, env, rid, args, newId).Ok?
    ensures NoneSucceed(db, CallTool(db, env, rid, args, newId).value)
  {
    hide Fence, Engine.Propose, CreateSchedule, RequestGoogle;
    var run := db.runs[rid];
    var counted := PutRun(db, rid, run.(toolCalls := run.toolCalls + 1));
    assert NoneSucceed(db, counted);
    hide NoneSucceed;
    match args {
      case ProposeInterface(target, expected, title, spec) =>
        ProposeNone(counted, env, ProposalInput(run.input.workspaceId, target, expected, title, spec), Some(rid),
                    newId);
      case CreateScheduleTool(v) =>
        CreateScheduleNone(
          counted, env, v.(workspaceId := run.input.workspaceId, modelId := run.input.modelId,
                           grantRefs := run.input.grantRefs),
          Some(rid), newId);
      case ReadGoogle(tool, windowValid) => GoogleNone(counted, env, rid, tool, windowValid, newId);
      case _ => SameNone(counted, counted);
    }
    Chain(db, counted, CallTool(db, env, rid, args, newId).value);
  }

  lemma AttemptNone(db: Db, env: Env, sid: Id, due: int, newId: Id)
    requires sid in db.schedules
    ensures NoneSucceed(db, Attempt(db, env, sid, due, newId))
  {
    hide CreateRun, C.NextDue;
    var s := db.schedules[sid].(nextRunAt := C.NextDue(db.schedules[sid].cron, env.cfg.calendar, env.now,
                                                       db.schedules[sid].endAt));
    CreateRunNone(db, env, ScheduledInput(s), newId, Some((sid, s)));
  }

  lemma {:induction false} TickNone(db: Db, env: Env, rows: seq<Id>, newIds: seq<Id>)
    requires |newIds| == |rows|
    ensures NoneSucceed(db, Tick(db, env, rows, newIds))
    decreases |rows|
  {
    hide NoneSucceed, TickOne;
    SameNone(db, db);
    if rows != [] {
      var next := TickOne(db, env, rows[0], newIds[0]);
      TickOneNone(db, env, rows[0], newIds[0]);
      TickNone(next, env, rows[1..], newIds[1..]);
      Chain(db, next, Tick(next, env, rows[1..], newIds[1..]));
    }
  }

  lemma TickOneIs(db: Db, env: Env, sid: Id, newId: Id)
    ensures var b := TickOne(db, env, sid, newId);
            || b.runs == db.runs
            || (sid in db.schedules && db.schedules[sid].nextRunAt.Some?
                && b == Attempt(db, env, sid, db.schedules[sid].nextRunAt.value, newId))
  {
    hide Attempt;
  }

  lemma TickOneNone(db: Db, env: Env, sid: Id, newId: Id)
    ensures NoneSucceed(db, TickOne(db, env, sid, newId))
  {
    hide Attempt, TickOne, NoneSucceed;
    TickOneIs(db, env, sid, newId);
    if TickOne(db, env, sid, newId).runs == db.runs {
      SameNone(db, TickOne(db, env, sid, newId));
    } else {
      AttemptNone(db, env, sid, db.schedules[sid].nextRunAt.value, newId);
    }
  }

  lemma RecoverNone(db: Db)
    ensures NoneSucceed(db, Recover(db))
  {
    hide SweepRuns;
    StopNone(db, Unfinished(db), Interrupt, SupervisorRestarted);
  }

  // ---------------------------------------------------------------- the end of a run

  /** Ending a run makes no other succeed, and this one only as a complete success. */
  lemma FinishSucceeds(db: Db, env: Env, rid: Id, result: Option<WorkerResult>, failure: Option<Code>, newId: Id, r: Id)
    requires Finish(db, env, rid, result, failure, newId).Ok?
    requires var b := Finish(db, env, rid, result, failure, newId).value; r in b.runs && b.runs[r].state.Succeeded?
    requires r in db.runs ==> !db.runs[r].state.Succeeded?
    ensures r == rid && rid in db.runs && Complete(db, env, rid, result, failure, newId).Ok?
  {
    hide Complete, Emit, Move;
    var run := db.runs[rid];
    if !Terminal(run.state) {
      if run.state.Cancelling? {
        MoveNone(db, rid, Cancelled, if run.reason.Some? then run.reason else Some(Stopped));
      } else if Complete(db, env, rid, result, failure, newId).Err? {
        FailNone(db, rid, Complete(db, env, rid, result, failure, newId).error);
      } else if r != rid {
        CompleteElsewhere(db, env, rid, result, failure, newId, r);
      }
    }
  }

  lemma FailNone(db: Db, rid: Id, code: Code)
    requires rid in db.runs
    ensures var dropped := DropProposals(db, {rid});
            var failed := Move(dropped, rid, FailureState(code), Some(Fault(code)));
            rid in failed.runs && NoneSucceed(db, Emit(failed, rid, ErrorRaised(code)))
  {
    var dropped := DropProposals(db, {rid});
    MoveNone(dropped, rid, FailureState(code), Some(Fault(code)));
    EmitNone(Move(dropped, rid, FailureState(code), Some(Fault(code))), rid, ErrorRaised(code));
  }

  lemma CompleteElsewhere(db: Db, env: Env, rid: Id, result: Option<WorkerResult>, failure: Option<Code>, newId: Id,
                          r: Id)
    requires rid in db.runs && Complete(db, env, rid, result, failure, newId).Ok? && r != rid
    requires var b := Complete(db, env, rid, result, failure, newId).value; r in b.runs && b.runs[r].state.Succeeded?
    ensures r in db.runs && db.runs[r].state.Succeeded?
  {
    hide Fence, AcceptResult, Engine.Publish, PendingOf;
    if db.runs[rid].schedule.Some? {
      var link := db.runs[rid].schedule.value;
      PublishNone(db, env, Only(PendingOf(db, rid)), link.targetRevision, true, newId);
    }
    hide Only;
  }

  // ---------------------------------------------------------------- every step

  /** A step after which a run has succeeded that had not ended that run as a success. */
  lemma StepSucceeds(st: State, env: Env, action: Action, r: Id)
    requires r in Act(st, env, action).db.runs && Act(st, env, action).db.runs[r].state.Succeeded?
    requires r in st.db.runs ==> !st.db.runs[r].state.Succeeded?
    ensures action.End? && action.rid == r && r in st.db.runs
    ensures Complete(st.db, env, r, action.result, action.failure, action.newId).Ok?
  {
    hide Dispatch, Delta, ReserveModelRequest, CallTool, Finish, StartFrom, Tick, Recover, FenceModelConfiguration,
        Complete;
    match action {
      case Request(route, key, body, newId) =>
        if Dispatch(st.db, env, route, key, body, newId).Ok? { DispatchNone(st.db, env, route, key, body, newId); }
      case Start => StartNone(st.db, env, st.db.runRows);
      case Say(rid, text) => if Delta(st.db, env, rid, text).Ok? { DeltaNone(st.db, env, rid, text); }
      case Reserve(rid) => if ReserveModelRequest(st.db, env, rid).Ok? { ReserveNone(st.db, env, rid); }
      case Call(rid, args, newId) =>
          if CallTool(st.db, env, rid, args, newId).Ok? { CallNone(st.db, env, rid, args, newId); }
      case End(rid, result, failure, newId) =>
        if Finish(st.db, env, rid, result, failure, newId).Ok? {
          FinishSucceeds(st.db, env, rid, result, failure, newId, r);
        }
      case Restart => RecoverNone(st.db);
      case Pass(newIds) => if |newIds| == |st.db.scheduleRows| { TickNone(st.db, env, st.db.scheduleRows, newIds); }
      case NewModels => FenceNone(st.db);
    }
  }

  lemma DeltaNone(db: Db, env: Env, rid: Id, text: string)
    requires Delta(db, env, rid, text).Ok?
    ensures NoneSucceed(db, Delta(db, env, rid, text).value)
  {
    hide Fence, H.IsText;
  }

  lemma ReserveNone(db: Db, env: Env, rid: Id)
    requires ReserveModelRequest(db, env, rid).Ok?
    ensures NoneSucceed(db, ReserveModelRequest(db, env, rid).value)
  {
    hide Fence;
  }
}
