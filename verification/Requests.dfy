/** What the system's requests and the supervisor's own steps lead to: which operation each route and
    body calls, with which arguments, and what is answered from a receipt. */
module Requests {
  import opened Wrappers
  import opened Engine
  import S = System
  import A = Admissions
  import C = Calls
  import D = Withdrawals
  import E = Endings
  import P = Passes
  import V = Verdicts
  import W = Writes

  /** What a request does to the tables, by its route and the body that belongs there. */
  function Leads(db: Db, env: Env, route: S.Route, key: Id, body: S.Body, newId: Id): Engine.Done<Db> {
    match (route, body)
    case (Runs, RunBody(v)) =>
      var (b, outcome) := CreateRun(db, env, v, key, None);
      if outcome.Pass? then Ok(b) else Err(outcome.error)
    case (CancelAt(rid), Nothing) => Ok(CancelRun(db, rid))
    case (ClaimAt(rid), Claiming(tid)) => ClaimRequest(db, env, rid, tid, newId)
    case (ResultAt(rid), Delivering(tid, result)) => DeliverResult(db, env, rid, tid, result)
    case (DeleteWorkspaceAt(wid), Nothing) => Ok(DeleteWorkspace(db, wid))
    case (Grants, GrantBody(v)) => CreateGrant(db, env, v, newId)
    case (RevokeAt(gid), Expecting(generation)) => RevokeGrant(db, gid, generation)
    case (Propose, Proposing(v)) => Engine.Propose(db, env, v, None, newId)
    case (Publish, Publishing(pid, expected)) =>
      (match Engine.Publish(db, env, pid, expected, false, newId)
      case Err(code) => Err(code)
      case Ok(done) => Ok(done.0))
    case (RenameAt(iid), Renaming(expected, title)) => Rename(db, iid, expected, title)
    case (RollbackAt(iid), RollingBack(expected, target)) => Rollback(db, iid, expected, target)
    case (DeleteInterfaceAt(iid), Expecting(expected)) => DeleteInterface(db, iid, expected)
    case (Schedules, Scheduling(v)) => CreateSchedule(db, env, v, None, newId)
    case (EnableAt(sid), Consenting(expected, consent)) => EnableSchedule(db, env, sid, expected, consent)
    case (PauseAt(sid), Expecting(expected)) => PauseSchedule(db, sid, expected)
    case (DeleteScheduleAt(sid), Expecting(expected)) => DeleteSchedule(db, sid, expected)
    case _ => Err(InvalidRequest)
  }

  /** The request goes through with the tables it leads to, or is refused with the same code. */
  ghost predicate Follows(r: S.Dispatched, leads: Engine.Done<Db>) {
    if leads.Ok? then r.Ok? && r.value.0 == leads.value else r == Err(leads.error)
  }

  lemma AdmittedRow(db: Db, env: Env, v: RunInput, key: Id)
    ensures CreateRun(db, env, v, key, None).1.Pass? ==> key in CreateRun(db, env, v, key, None).0.runs
  {
    A.CreateRunExactly(db, env, v, key, None);
    hide CreateRun, A.MayBeAdmitted;
  }

  lemma ClaimedRow(db: Db, env: Env, rid: Id, tid: Id, token: Id)
    ensures ClaimRequest(db, env, rid, tid, token).Ok? ==> tid in ClaimRequest(db, env, rid, tid, token).value.tools
  {
    C.ClaimExactly(db, env, rid, tid, token);
    hide ClaimRequest, C.RequestStands;
  }

  lemma RunsFollow(db: Db, env: Env, route: S.Route, key: Id, body: S.Body, newId: Id)
    requires route.Runs? || route.CancelAt? || route.ClaimAt? || route.ResultAt?
    ensures Follows(S.Dispatch(db, env, route, key, body, newId), Leads(db, env, route, key, body, newId))
  {
    hide CreateRun, CancelRun, ClaimRequest, DeliverResult;
    if route.Runs? && body.RunBody? { AdmittedRow(db, env, body.run, key); }
    if route.ClaimAt? && body.Claiming? { ClaimedRow(db, env, route.rid, body.requestId, newId); }
  }

  lemma AuthorityFollows(db: Db, env: Env, route: S.Route, key: Id, body: S.Body, newId: Id)
    requires route.DeleteWorkspaceAt? || route.Grants? || route.RevokeAt?
    ensures Follows(S.Dispatch(db, env, route, key, body, newId), Leads(db, env, route, key, body, newId))
  {
    hide DeleteWorkspace, CreateGrant, RevokeGrant;
    if route.Grants? && body.GrantBody? { GrantedRow(db, env, body.grant, newId); }
    if route.RevokeAt? && body.Expecting? { RevokedRow(db, route.gid, body.version); }
  }

  lemma GrantedRow(db: Db, env: Env, v: GrantInput, gid: Id)
    ensures CreateGrant(db, env, v, gid).Ok? ==> gid in CreateGrant(db, env, v, gid).value.grants
  {
    D.CreateGrantExactly(db, env, v, gid);
    hide CreateGrant;
  }

  lemma RevokedRow(db: Db, gid: Id, generation: nat)
    ensures RevokeGrant(db, gid, generation).Ok? ==> gid in RevokeGrant(db, gid, generation).value.grants
  {
    D.RevokeExactly(db, gid, generation);
    hide RevokeGrant, D.HaltsExactly, D.Withdrawn;
  }

  lemma ProposalsFollow(db: Db, env: Env, route: S.Route, key: Id, body: S.Body, newId: Id)
    requires (route.Propose? || route.Publish?) && newId !in db.interfaces
    ensures Follows(S.Dispatch(db, env, route, key, body, newId), Leads(db, env, route, key, body, newId))
  {
    hide Engine.Propose, Engine.Publish;
    if route.Propose? && body.Proposing? { ProposedRow(db, env, body.proposal, newId); }
    if route.Publish? && body.Publishing? { PublishedRow(db, env, body.proposalId, body.expected, newId); }
  }

  lemma ProposedRow(db: Db, env: Env, v: ProposalInput, pid: Id)
    ensures Engine.Propose(db, env, v, None, pid).Ok? ==> pid in Engine.Propose(db, env, v, None, pid).value.proposals
  {
    W.ProposeExactly(db, env, v, None, pid);
    hide Engine.Propose, W.MayPropose;
  }

  lemma PublishedRow(db: Db, env: Env, pid: Id, expected: nat, newId: Id)
    requires newId !in db.interfaces
    ensures var r := Engine.Publish(db, env, pid, expected, false, newId); r.Ok? ==> r.value.1 in r.value.0.interfaces
  {
    W.PublishExactly(db, env, pid, expected, false, newId);
    hide Engine.Publish, W.MayPublish, V.Told;
    var r := Engine.Publish(db, env, pid, expected, false, newId);
    if r.Ok? {
      var p := db.proposals[pid];
      if p.source.Some? && p.source.value in db.runs {
        V.ToldElsewhere(W.WrittenAs(db, pid, r.value.1), p.source.value, db.runs[p.source.value],
                        [InterfaceUpdated(r.value.1, p.expectedRevision + 1)]);
      }
    }
  }

  lemma InterfacesFollow(db: Db, env: Env, route: S.Route, key: Id, body: S.Body, newId: Id)
    requires route.RenameAt? || route.RollbackAt? || route.DeleteInterfaceAt?
    ensures Follows(S.Dispatch(db, env, route, key, body, newId), Leads(db, env, route, key, body, newId))
  {
    hide Rename, Rollback, DeleteInterface;
    if route.RenameAt? && body.Renaming? { W.RenameExactly(db, route.iid, body.expected, body.title); }
    if route.RollbackAt? && body.RollingBack? { W.RollbackExactly(db, route.iid, body.expected, body.target); }
  }

  lemma SchedulesFollow(db: Db, env: Env, route: S.Route, key: Id, body: S.Body, newId: Id)
    requires route.Schedules? || route.EnableAt? || route.PauseAt? || route.DeleteScheduleAt?
    ensures Follows(S.Dispatch(db, env, route, key, body, newId), Leads(db, env, route, key, body, newId))
  {
    hide CreateSchedule, EnableSchedule, PauseSchedule, DeleteSchedule;
    if route.Schedules? && body.Scheduling? { ScheduledRow(db, env, body.schedule, newId); }
    if route.EnableAt? && body.Consenting? { EnabledRow(db, env, route.sid, body.version, body.consent); }
    if route.PauseAt? && body.Expecting? { PausedRow(db, route.sid, body.version); }
  }

  lemma ScheduledRow(db: Db, env: Env, v: ScheduleInput, sid: Id)
    ensures CreateSchedule(db, env, v, None, sid).Ok? ==> sid in CreateSchedule(db, env, v, None, sid).value.schedules
  {
    W.CreateScheduleExactly(db, env, v, None, sid);
    hide CreateSchedule, W.MaySchedule;
  }

  lemma EnabledRow(db: Db, env: Env, sid: Id, expected: nat, consent: Consent)
    ensures var r := EnableSchedule(db, env, sid, expected, consent); r.Ok? ==> sid in r.value.schedules
  {
    if EnableSchedule(db, env, sid, expected, consent).Ok? { P.EnableWrites(db, env, sid, expected, consent); }
    hide EnableSchedule;
  }

  lemma PausedRow(db: Db, sid: Id, expected: nat)
    ensures PauseSchedule(db, sid, expected).Ok? ==> sid in PauseSchedule(db, sid, expected).value.schedules
  {
    D.PauseScheduleExactly(db, sid, expected);
    hide PauseSchedule, E.MovesExactly;
  }

  /** Every request that was not answered before does what its route and body say, or nothing. */
  lemma DispatchExactly(db: Db, env: Env, route: S.Route, key: Id, body: S.Body, newId: Id)
    requires newId !in db.interfaces
    ensures Follows(S.Dispatch(db, env, route, key, body, newId), Leads(db, env, route, key, body, newId))
  {
    hide S.Dispatch, Leads, Follows;
    match route {
      case Runs | CancelAt(_) | ClaimAt(_) | ResultAt(_) => RunsFollow(db, env, route, key, body, newId);
      case DeleteWorkspaceAt(_) | Grants | RevokeAt(_) => AuthorityFollows(db, env, route, key, body, newId);
      case Propose | Publish => ProposalsFollow(db, env, route, key, body, newId);
      case RenameAt(_) | RollbackAt(_) | DeleteInterfaceAt(_) => InterfacesFollow(db, env, route, key, body, newId);
      case Schedules | EnableAt(_) | PauseAt(_) | DeleteScheduleAt(_) =>
          SchedulesFollow(db, env, route, key, body, newId);
    }
  }

  /** A key that was used on this route is answered from its receipt, for the same body only, and changes
      nothing; any other request leaves the tables it leads to and a receipt, or changes nothing. */
  lemma PostExactly(st: S.State, env: Env, route: S.Route, key: Id, body: S.Body, newId: Id)
    requires newId !in st.db.interfaces
    ensures var (next, r) := S.Post(st, env, route, key, body, newId);
            var leads := Leads(st.db, env, route, key, body, newId);
            if (route, key) in st.mutations then
              var receipt := st.mutations[(route, key)];
              next == st && r == if receipt.body == body then Ok(receipt.reply) else Err(IdempotencyConflict)
            else if leads.Ok? then
              r.Ok? && next == S.State(leads.value, st.mutations[(route, key) := S.Receipt(body, r.value)])
            else next == st && r == Err(leads.error)
  {
    DispatchExactly(st.db, env, route, key, body, newId);
    hide S.Dispatch, Leads;
  }

  /** The supervisor's own steps: dispatch and the scheduler go over the rows in the order in which they
      were added, and what a worker asks for is done or leaves everything as it was. */
  lemma StepsExactly(st: S.State, env: Env, action: S.Action)
    ensures var b := S.Act(st, env, action);
            && (action.Start? ==> b == st.(db := StartFrom(st.db, env, st.db.runRows).0))
            && (action.Pass? && |action.newIds| == |st.db.scheduleRows| ==>
                  b == st.(db := Tick(st.db, env, st.db.scheduleRows, action.newIds)))
            && (action.Restart? ==> b == st.(db := Recover(st.db)))
            && (action.NewModels? ==> b == st.(db := FenceModelConfiguration(st.db)))
            && (action.Say? ==> b == Left(st, Delta(st.db, env, action.rid, action.text)))
            && (action.Reserve? ==> b == Left(st, ReserveModelRequest(st.db, env, action.rid)))
            && (action.Call? ==> b == Left(st, CallTool(st.db, env, action.rid, action.args, action.newId)))
            && (action.End? ==>
                  b == Left(st, Finish(st.db, env, action.rid, action.result, action.failure, action.newId)))
  {
    hide StartFrom, Tick, Recover, FenceModelConfiguration, Delta, ReserveModelRequest, CallTool, Finish, S.Post;
  }

  function Left(st: S.State, r: Engine.Done<Db>): S.State {
    if r.Ok? then S.State(r.value, st.mutations) else st
  }
}
