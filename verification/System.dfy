/** Whole runs of the engine: idempotent requests, the supervisor's calls, and what holds in every
    reachable state and between any two of them. */
module System {
  import opened Wrappers
  import opened Engine
  import opened Invariant
  import opened RunSteps
  import opened Authority
  import opened Admission
  import opened Publication
  import opened Scheduling
  import opened Work
  import H = History

  // ---------------------------------------------------------------- requests

  datatype Route =
    | Runs | Grants | Propose | Publish | Schedules
    | DeleteWorkspaceAt(wid: Id) | RevokeAt(gid: Id) | CancelAt(rid: Id) | ClaimAt(rid: Id) | ResultAt(rid: Id)
    | RenameAt(iid: Id) | RollbackAt(iid: Id) | DeleteInterfaceAt(iid: Id)
    | EnableAt(sid: Id) | PauseAt(sid: Id) | DeleteScheduleAt(sid: Id)

  datatype Body =
    | Nothing
    | RunBody(run: RunInput)
    | GrantBody(grant: GrantInput)
    | Expecting(version: nat)
    | Proposing(proposal: ProposalInput)
    | Publishing(proposalId: Id, expected: nat)
    | Renaming(expected: nat, title: string)
    | RollingBack(expected: nat, target: nat)
    | Scheduling(schedule: ScheduleInput)
    | Consenting(version: nat, consent: Consent)
    | Claiming(requestId: Id)
    | Delivering(requestId: Id, result: ResultBody)

  datatype Reply =
    | RunReply(run: Run)
    | CancelReply(admitted: bool, state: RunState)
    | GrantReply(id: Id, grant: Grant)
    | ProposalReply(id: Id, proposal: Proposal)
    | InterfaceReply(id: Id, interface: Interface)
    | ScheduleReply(id: Id, schedule: Schedule)
    | ClaimReply(token: Id, until: int)
    | Gone(id: Id)
    | Done

  datatype Receipt = Receipt(body: Body, reply: Reply)

  datatype State = State(db: Db, mutations: map<(Route, Id), Receipt>)

  const START := State(EMPTY, map[])

  type Dispatched = Result<(Db, Reply), Code>

  function OnRuns(db: Db, env: Env, route: Route, key: Id, body: Body, newId: Id): Dispatched {
    match (route, body)
    case (Runs, RunBody(v)) =>
      var (b, outcome) := CreateRun(db, env, v, key, None);
      if outcome.Fail? then Err(outcome.error) else if key in b.runs then Ok((b, RunReply(b.runs[key])))
          else Err(NotFound)
    case (CancelAt(rid), Nothing) =>
      var b := CancelRun(db, rid);
      Ok((b, if rid in b.runs then CancelReply(true, b.runs[rid].state) else CancelReply(false, Cancelled)))
    case (ClaimAt(rid), Claiming(tid)) =>
      var b :- ClaimRequest(db, env, rid, tid, newId);
      if tid in b.tools then Ok((b, ClaimReply(newId, b.tools[tid].claimUntil))) else Err(NotFound)
    case (ResultAt(rid), Delivering(tid, result)) =>
      var b :- DeliverResult(db, env, rid, tid, result);
      Ok((b, Reply.Done))
    case _ => Err(InvalidRequest)
  }

  function OnAuthority(db: Db, env: Env, route: Route, body: Body, newId: Id): Dispatched {
    match (route, body)
    case (DeleteWorkspaceAt(wid), Nothing) => Ok((DeleteWorkspace(db, wid), Gone(wid)))
    case (Grants, GrantBody(v)) =>
      var b :- CreateGrant(db, env, v, newId);
      if newId in b.grants then Ok((b, GrantReply(newId, b.grants[newId]))) else Err(NotFound)
    case (RevokeAt(gid), Expecting(generation)) =>
      var b :- RevokeGrant(db, gid, generation);
      if gid in b.grants then Ok((b, GrantReply(gid, b.grants[gid]))) else Err(NotFound)
    case _ => Err(InvalidRequest)
  }

  function OnProposals(db: Db, env: Env, route: Route, body: Body, newId: Id): Dispatched {
    match (route, body)
    case (Propose, Proposing(v)) =>
      var b :- Engine.Propose(db, env, v, None, newId);
      if newId in b.proposals then Ok((b, ProposalReply(newId, b.proposals[newId]))) else Err(NotFound)
    case (Publish, Publishing(pid, expected)) =>
      var done :- Engine.Publish(db, env, pid, expected, false, newId);
      if done.1 in done.0.interfaces then Ok((done.0, InterfaceReply(done.1, done.0.interfaces[done.1])))
          else Err(NotFound)
    case _ => Err(InvalidRequest)
  }

  function OnInterfaces(db: Db, route: Route, body: Body): Dispatched {
    match (route, body)
    case (RenameAt(iid), Renaming(expected, title)) =>
      var b :- Rename(db, iid, expected, title);
      if iid in b.interfaces then Ok((b, InterfaceReply(iid, b.interfaces[iid]))) else Err(NotFound)
    case (RollbackAt(iid), RollingBack(expected, target)) =>
      var b :- Rollback(db, iid, expected, target);
      if iid in b.interfaces then Ok((b, InterfaceReply(iid, b.interfaces[iid]))) else Err(NotFound)
    case (DeleteInterfaceAt(iid), Expecting(expected)) =>
      var b :- DeleteInterface(db, iid, expected);
      Ok((b, Gone(iid)))
    case _ => Err(InvalidRequest)
  }

  function OnSchedules(db: Db, env: Env, route: Route, body: Body, newId: Id): Dispatched {
    match (route, body)
    case (Schedules, Scheduling(v)) =>
      var b :- CreateSchedule(db, env, v, None, newId);
      if newId in b.schedules then Ok((b, ScheduleReply(newId, b.schedules[newId]))) else Err(NotFound)
    case (EnableAt(sid), Consenting(expected, consent)) =>
      var b :- EnableSchedule(db, env, sid, expected, consent);
      if sid in b.schedules then Ok((b, ScheduleReply(sid, b.schedules[sid]))) else Err(NotFound)
    case (PauseAt(sid), Expecting(expected)) =>
      var b :- PauseSchedule(db, sid, expected);
      if sid in b.schedules then Ok((b, ScheduleReply(sid, b.schedules[sid]))) else Err(NotFound)
    case (DeleteScheduleAt(sid), Expecting(expected)) =>
      var b :- DeleteSchedule(db, sid, expected);
      Ok((b, Gone(sid)))
    case _ => Err(InvalidRequest)
  }

  /** The engine's answer to a request it has not seen: the tables it leaves and its reply. A body
      that is not the route's is refused. */
  function Dispatch(db: Db, env: Env, route: Route, key: Id, body: Body, newId: Id): Dispatched {
    match route
    case Runs | CancelAt(_) | ClaimAt(_) | ResultAt(_) => OnRuns(db, env, route, key, body, newId)
    case DeleteWorkspaceAt(_) | Grants | RevokeAt(_) => OnAuthority(db, env, route, body, newId)
    case Propose | Publish => OnProposals(db, env, route, body, newId)
    case RenameAt(_) | RollbackAt(_) | DeleteInterfaceAt(_) => OnInterfaces(db, route, body)
    case Schedules | EnableAt(_) | PauseAt(_) | DeleteScheduleAt(_) => OnSchedules(db, env, route, body, newId)
  }

  /** A request carries an idempotency key: seen before, it is answered from the receipt. A fault
      leaves everything as it was. */
  function Post(st: State, env: Env, route: Route, key: Id, body: Body, newId: Id): (State, Result<Reply, Code>) {
    if (route, key) in st.mutations then
      var receipt := st.mutations[(route, key)];
      (st, if receipt.body == body then Ok(receipt.reply) else Err(IdempotencyConflict))
    else match Dispatch(st.db, env, route, key, body, newId)
      case Err(code) => (st, Err(code))
      case Ok(done) => (State(done.0, st.mutations[(route, key) := Receipt(body, done.1)]), Ok(done.1))
  }

  // ---------------------------------------------------------------- everything that can happen

  datatype Action =
    | Request(route: Route, key: Id, body: Body, newId: Id)
    | Start
    | Say(rid: Id, text: string)
    | Reserve(rid: Id)
    | Call(rid: Id, args: ToolArgs, newId: Id)
    | End(rid: Id, result: Option<WorkerResult>, failure: Option<Code>, newId: Id)
    | Restart
    | Pass(newIds: seq<Id>)
    | NewModels

  function Keep(st: State, r: Engine.Done<Db>): State {
    if r.Ok? then st.(db := r.value) else st
  }

  function Act(st: State, env: Env, action: Action): State {
    match action
    case Request(route, key, body, newId) => Post(st, env, route, key, body, newId).0
    case Start => st.(db := StartNext(st.db, env).0)
    case Say(rid, text) => Keep(st, Delta(st.db, env, rid, text))
    case Reserve(rid) => Keep(st, ReserveModelRequest(st.db, env, rid))
    case Call(rid, args, newId) => Keep(st, CallTool(st.db, env, rid, args, newId))
    case End(rid, result, failure, newId) => Keep(st, Finish(st.db, env, rid, result, failure, newId))
    case Restart => st.(db := Recover(st.db))
    case Pass(newIds) =>
      if |newIds| == |st.db.scheduleRows| then st.(db := Tick(st.db, env, st.db.scheduleRows, newIds)) else st
    case NewModels => st.(db := FenceModelConfiguration(st.db))
  }

  /** Ids are minted fresh, and the supervisor calls tools only for runs it has started. */
  predicate Permitted(st: State, action: Action) {
    match action
    case Request(_, _, _, newId) => Unused(st.db, newId)
    case Call(rid, _, newId) => Unused(st.db, newId) && (rid in st.db.runs ==> !st.db.runs[rid].state.Queued?)
    case End(_, _, _, newId) => Unused(st.db, newId)
    case Pass(newIds) => |newIds| == |st.db.scheduleRows|
    case _ => true
  }

  // ---------------------------------------------------------------- one step

  lemma OnRunsKeepsInv(db: Db, env: Env, route: Route, key: Id, body: Body, newId: Id)
    requires Inv(db, env.cfg, env.now) && OnRuns(db, env, route, key, body, newId).Ok?
    ensures Sound(db, OnRuns(db, env, route, key, body, newId).value.0, env.cfg, env.now)
  {
    hide Inv, Advances, CreateRun, CancelRun, ClaimRequest, DeliverResult;
    match (route, body) {
      case (Runs, RunBody(v)) => CreateOperatorRunKeepsInv(db, env, v, key);
      case (CancelAt(rid), Nothing) => CancelKeepsInv(db, rid, env.cfg, env.now);
      case (ClaimAt(rid), Claiming(tid)) => ClaimKeepsInv(db, env, rid, tid, newId);
      case (ResultAt(rid), Delivering(tid, result)) => DeliverKeepsInv(db, env, rid, tid, result);
      case _ =>
    }
  }

  lemma OnAuthorityKeepsInv(db: Db, env: Env, route: Route, body: Body, newId: Id)
    requires Inv(db, env.cfg, env.now) && Unused(db, newId) && OnAuthority(db, env, route, body, newId).Ok?
    ensures Sound(db, OnAuthority(db, env, route, body, newId).value.0, env.cfg, env.now)
  {
    hide Inv, Advances, DeleteWorkspace, CreateGrant, RevokeGrant, Unused;
    match (route, body) {
      case (DeleteWorkspaceAt(wid), Nothing) => DeleteWorkspaceKeepsInv(db, wid, env.cfg, env.now);
      case (Grants, GrantBody(v)) => CreateGrantKeepsInv(db, env, v, newId);
      case (RevokeAt(gid), Expecting(generation)) => RevokeGrantKeepsInv(db, gid, generation, env.cfg, env.now);
      case _ =>
    }
  }

  lemma OnProposalsKeepsInv(db: Db, env: Env, route: Route, body: Body, newId: Id)
    requires Inv(db, env.cfg, env.now) && Unused(db, newId) && OnProposals(db, env, route, body, newId).Ok?
    ensures Sound(db, OnProposals(db, env, route, body, newId).value.0, env.cfg, env.now)
  {
    hide Inv, Advances, Engine.Propose, Engine.Publish, Unused;
    match (route, body) {
      case (Propose, Proposing(v)) => ProposeKeepsInv(db, env, v, None, newId);
      case (Publish, Publishing(pid, expected)) => PublishKeepsInv(db, env, pid, expected, newId);
      case _ =>
    }
  }

  lemma OnInterfacesKeepsInv(db: Db, env: Env, route: Route, body: Body)
    requires Inv(db, env.cfg, env.now) && OnInterfaces(db, route, body).Ok?
    ensures Sound(db, OnInterfaces(db, route, body).value.0, env.cfg, env.now)
  {
    hide Inv, Advances, Rename, Rollback, DeleteInterface;
    match (route, body) {
      case (RenameAt(iid), Renaming(expected, title)) => RenameKeepsInv(db, iid, expected, title, env.cfg, env.now);
      case (RollbackAt(iid), RollingBack(expected, target)) =>
          RollbackKeepsInv(db, iid, expected, target, env.cfg, env.now);
      case (DeleteInterfaceAt(iid), Expecting(expected)) =>
          DeleteInterfaceKeepsInv(db, iid, expected, env.cfg, env.now);
      case _ =>
    }
  }

  lemma OnSchedulesKeepsInv(db: Db, env: Env, route: Route, body: Body, newId: Id)
    requires Inv(db, env.cfg, env.now) && Unused(db, newId) && OnSchedules(db, env, route, body, newId).Ok?
    ensures Sound(db, OnSchedules(db, env, route, body, newId).value.0, env.cfg, env.now)
  {
    hide Inv, Advances, CreateSchedule, EnableSchedule, DeleteSchedule, PauseSchedules, Unused;
    match (route, body) {
      case (Schedules, Scheduling(v)) => CreateScheduleKeepsInv(db, env, v, None, newId);
      case (EnableAt(sid), Consenting(expected, consent)) => EnableKeepsInv(db, env, sid, expected, consent);
      case (PauseAt(sid), Expecting(expected)) => PauseKeepsInv(db, {sid}, OperatorPaused, env.cfg, env.now);
      case (DeleteScheduleAt(sid), Expecting(expected)) => DeleteScheduleKeepsInv(db, sid, expected, env.cfg, env.now);
      case _ =>
    }
  }

  lemma RouteKeepsInv(db: Db, env: Env, route: Route, key: Id, body: Body, newId: Id)
    requires Inv(db, env.cfg, env.now) && Unused(db, newId) && Dispatch(db, env, route, key, body, newId).Ok?
    ensures Sound(db, Dispatch(db, env, route, key, body, newId).value.0, env.cfg, env.now)
  {
    hide Inv, Advances, Unused, OnRuns, OnAuthority, OnProposals, OnInterfaces, OnSchedules;
    match route {
      case Runs | CancelAt(_) | ClaimAt(_) | ResultAt(_) => OnRunsKeepsInv(db, env, route, key, body, newId);
      case DeleteWorkspaceAt(_) | Grants | RevokeAt(_) => OnAuthorityKeepsInv(db, env, route, body, newId);
      case Propose | Publish => OnProposalsKeepsInv(db, env, route, body, newId);
      case RenameAt(_) | RollbackAt(_) | DeleteInterfaceAt(_) => OnInterfacesKeepsInv(db, env, route, body);
      case Schedules | EnableAt(_) | PauseAt(_) | DeleteScheduleAt(_) =>
          OnSchedulesKeepsInv(db, env, route, body, newId);
    }
  }

  lemma StepKeepsInv(st: State, env: Env, action: Action)
    requires Inv(st.db, env.cfg, env.now) && Permitted(st, action)
    ensures Sound(st.db, Act(st, env, action).db, env.cfg, env.now)
  {
    hide Inv, Advances, Dispatch, Delta, ReserveModelRequest, CallTool, Finish, StartFrom, Tick, Recover,
        FenceModelConfiguration;
    hide Unused;
    Same(st.db, env.cfg, env.now);
    match action {
      case Request(route, key, body, newId) =>
        if (route, key) !in st.mutations && Dispatch(st.db, env, route, key, body, newId).Ok? {
          RouteKeepsInv(st.db, env, route, key, body, newId);
        }
      case Start => StartKeepsInv(st.db, env, st.db.runRows);
      case Say(rid, text) => if Delta(st.db, env, rid, text).Ok? { DeltaKeepsInv(st.db, env, rid, text); }
      case Reserve(rid) => if ReserveModelRequest(st.db, env, rid).Ok? { ReserveKeepsInv(st.db, env, rid); }
      case Call(rid, args, newId) =>
          if CallTool(st.db, env, rid, args, newId).Ok? { CallToolKeepsInv(st.db, env, rid, args, newId); }
      case End(rid, result, failure, newId) =>
        if Finish(st.db, env, rid, result, failure, newId).Ok? {
          FinishKeepsInv(st.db, env, rid, result, failure, newId);
        }
      case Restart => RecoverKeepsInv(st.db, env.cfg, env.now);
      case Pass(newIds) => TickKeepsInv(st.db, env, st.db.scheduleRows, newIds);
      case NewModels => FenceModelConfigurationKeepsInv(st.db, env.cfg, env.now);
    }
  }
}
