/** The durable run, schedule and interface engine of store.py on values: the tables, and for
    every operation the tables it leaves behind. Class `Store` (Store.dfy) runs the same
    operations step by step and is proved against these functions. */
module Engine {
  import opened Wrappers
  import H = History
  import C = Cron

  /** UUIDs are 128-bit numbers; tokens and digests are injective, so they stand for themselves. */
  type Id = nat

  const QUEUE_LIMIT := 8
  const EVENT_LIMIT := 20000
  const CLAIM_LEASE := 30_000

  // ---------------------------------------------------------------- entities

  datatype Code =
    | NotFound | Tombstoned | InvalidRequest | ModelUnavailable | RuntimeUnavailable | CancelledBeforeAdmission
    | RunExists | HistoryAlreadyInitialized | GrantDenied | CapacityExceeded | RunActive | IdempotencyConflict
    | RevisionConflict | UnauthorizedScope | RunInactive | DeadlineExceeded | ScheduleFenced | ConsentMismatch
    | ScheduleEnded | ProposalInactive | Expired | StaleClaim | ToolDenied | BudgetExceeded | DailyBudgetExceeded
    | HermesIncomplete | InvalidRefresh | DeviceUnavailable | WorkerFault(name: nat)

  datatype Reason =
    | Fault(code: Code) | OperatorCancelled | WorkspaceDeleted | GrantRevoked | InterfaceDeleted | OperatorPaused
    | ScheduleDeleted | NativeToolRequired | SupervisorRestarted | ModelConfigurationChanged | Stopped

  datatype RunState =
    | Queued | Running | WaitingForDevice | Cancelling | Succeeded | Failed | Cancelled | Interrupted | Blocked

  predicate Terminal(s: RunState) { s.Succeeded? || s.Failed? || s.Cancelled? || s.Interrupted? || s.Blocked? }

  /** Neither over nor on its way out: the runs that may still act. */
  predicate Live(s: RunState) { !Terminal(s) && !s.Cancelling? }

  /** Handed to a worker and not stopped since. */
  predicate Working(s: RunState) { s.Running? || s.WaitingForDevice? }

  datatype EventKind =
    | StateChanged(state: RunState, reason: Option<Reason>)
    | InterfaceProposed(proposalId: Id)
    | InterfaceUpdated(interfaceId: Id, revision: nat)
    | ScheduleCreated(scheduleId: Id)
    | ToolRequested(requestId: Id)
    | ToolResult(requestId: Id, succeeded: bool)
    | AssistantDelta(text: string)
    | AssistantMessage(text: string)
    | ErrorRaised(code: Code)

  datatype Event = Event(seqNo: nat, kind: EventKind)

  datatype GrantRef = GrantRef(id: Id, generation: nat)

  datatype Budgets = Budgets(maxIterations: nat, maxToolCalls: nat, maxOutputTokens: nat, maxDurationSeconds: nat)

  datatype RunInput = RunInput(
    workspaceId: Id, message: string, modelId: Id, grantRefs: seq<GrantRef>, interfaceIds: seq<Id>,
    budgets: Budgets, importHistory: seq<H.Message>)

  /** What a scheduled run remembers of its schedule at admission. */
  datatype ScheduleLink = ScheduleLink(scheduleId: Id, version: nat, targetRevision: nat)

  datatype Run = Run(
    input: RunInput, schedule: Option<ScheduleLink>, state: RunState, reason: Option<Reason>,
    createdAt: int, deadline: int, lastSeq: nat, history: seq<H.Message>, connections: set<Id>,
    toolCalls: nat, modelRequests: nat, finalMessage: Option<string>)

  datatype Workspace = Workspace(history: seq<H.Message>, admitted: bool, deleted: bool)

  datatype GoogleTool = GmailListMetadata | CalendarListEvents

  datatype Grant = Grant(
    workspaceId: Id, connectionId: Id, deviceId: Id, operations: set<GoogleTool>, modelId: Id,
    expiresAt: int, synthetic: bool, generation: nat, revoked: bool)

  datatype ProposalState = Pending | Published | Invalidated

  datatype Proposal = Proposal(
    workspaceId: Id, interfaceId: Option<Id>, expectedRevision: nat, title: string, spec: string,
    state: ProposalState, source: Option<Id>)

  datatype Provenance = Provenance(synthetic: bool, source: Option<Id>)

  datatype Interface = Interface(revision: nat, title: string, spec: string, provenance: Provenance, deleted: bool)

  datatype Revision = Revision(title: string, spec: string, parent: Option<nat>)

  datatype ScheduleState = Paused | Enabled | Ended

  /** The cron text is stored parsed; parsing is a function of the text. */
  datatype Schedule = Schedule(
    workspaceId: Id, interfaceId: Id, prompt: string, modelId: Id, cron: C.Cron, endAt: int, maxRuns: nat,
    budgets: Budgets, grantRefs: seq<GrantRef>, version: nat, state: ScheduleState, runsStarted: nat,
    nextRunAt: Option<int>, lastRunId: Option<Id>, reason: Option<Reason>, deleted: bool)

  datatype Occurrence = Missed | Admitted(runId: Id) | Refused(code: Code)

  datatype RequestState = Open | Claimed | Completed | Withdrawn

  datatype ResultBody = ResultBody(claimToken: Id, succeeded: bool, wellFormed: bool, data: string)

  datatype ToolRequest = ToolRequest(
    runId: Id, deviceId: Id, connectionId: Id, grantRef: GrantRef, tool: GoogleTool, expiresAt: int,
    state: RequestState, claim: Option<Id>, claimUntil: int, result: Option<ResultBody>, digest: Option<ResultBody>)

  // ---------------------------------------------------------------- tables

  /** The database. `runRows` and `scheduleRows` keep the insertion order that scans follow. */
  datatype Db = Db(
    workspaces: map<Id, Workspace>,
    runs: map<Id, Run>, runRows: seq<Id>,
    events: map<Id, seq<Event>>,
    cancellations: set<Id>,
    grants: map<Id, Grant>,
    proposals: map<Id, Proposal>,
    interfaces: map<Id, Interface>,
    revisions: map<(Id, nat), Revision>,
    schedules: map<Id, Schedule>, scheduleRows: seq<Id>,
    occurrences: map<(Id, int), Occurrence>,
    tools: map<Id, ToolRequest>,
    usage: map<int, nat>)

  const EMPTY := Db(map[], map[], [], map[], {}, map[], map[], map[], map[], map[], [], map[], map[], map[])

  datatype Config = Config(device: Id, codec: H.Codec, calendar: C.Calendar, dailyLimit: nat)

  /** What a transaction reads from outside: one clock reading, worker readiness, offered models. */
  datatype Env = Env(cfg: Config, now: int, ready: bool, models: set<Id>)

  /** An id that no table has used. */
  predicate Unused(db: Db, id: Id) {
    && id !in db.runs && id !in db.cancellations && id !in db.grants && id !in db.proposals
    && id !in db.interfaces && id !in db.schedules && id !in db.tools
  }

  type Done<T> = Result<T, Code>

  // ---------------------------------------------------------------- events and run states

  function Log(db: Db, rid: Id): seq<Event> { if rid in db.events then db.events[rid] else [] }

  function Emit(db: Db, rid: Id, kind: EventKind): Db
    requires rid in db.runs
  {
    var run := db.runs[rid];
    var n := run.lastSeq + 1;
    db.(runs := db.runs[rid := run.(lastSeq := n)], events := db.events[rid := Log(db, rid) + [Event(n, kind)]])
  }

  function PutRun(db: Db, rid: Id, run: Run): Db {
    db.(runs := db.runs[rid := run])
  }

  function Move(db: Db, rid: Id, state: RunState, reason: Option<Reason>): Db
    requires rid in db.runs
  {
    Emit(PutRun(db, rid, db.runs[rid].(state := state, reason := reason)), rid, StateChanged(state, reason))
  }

  // ---------------------------------------------------------------- bulk stops

  datatype Sweep = Stop | Interrupt

  function Target(sweep: Sweep, s: RunState): Option<RunState> {
    match sweep
    case Stop => if Terminal(s) then None else Some(if s.Queued? then Cancelled else Cancelling)
    case Interrupt => if Working(s) || s.Cancelling? then Some(Interrupted) else None
  }

  function SweptRun(run: Run, sweep: Sweep, reason: Reason): Run {
    match Target(sweep, run.state)
    case None => run
    case Some(s) => run.(state := s, reason := Some(reason), lastSeq := run.lastSeq + 1)
  }

  function SweptLog(log: seq<Event>, run: Run, sweep: Sweep, reason: Reason): seq<Event> {
    match Target(sweep, run.state)
    case None => log
    case Some(s) => log + [Event(run.lastSeq + 1, StateChanged(s, Some(reason)))]
  }

  function Dropped(p: Proposal, sources: set<Id>): Proposal {
    if p.state.Pending? && p.source.Some? && p.source.value in sources then p.(state := Invalidated) else p
  }

  function DropProposals(db: Db, sources: set<Id>): Db {
    db.(proposals := map p | p in db.proposals :: Dropped(db.proposals[p], sources))
  }

  function SweptRuns(runs: map<Id, Run>, victims: set<Id>, sweep: Sweep, reason: Reason): map<Id, Run> {
    map r | r in runs :: if r in victims then SweptRun(runs[r], sweep, reason) else runs[r]
  }

  function SweptLogs(events: map<Id, seq<Event>>, runs: map<Id, Run>, victims: set<Id>, sweep: Sweep,
                     reason: Reason): map<Id, seq<Event>> {
    map r | r in events :: if r in victims && r in runs then SweptLog(events[r], runs[r], sweep, reason) else events[r]
  }

  /** Stop (or interrupt) every victim that is not over, and drop the victims' pending proposals. */
  function SweepRuns(db: Db, victims: set<Id>, sweep: Sweep, reason: Reason): Db {
    DropProposals(db, victims).(
      runs := SweptRuns(db.runs, victims, sweep, reason),
      events := SweptLogs(db.events, db.runs, victims, sweep, reason))
  }

  function RunsOf(db: Db, schedules: set<Id>): set<Id> {
    set r | r in db.runs && db.runs[r].schedule.Some? && db.runs[r].schedule.value.scheduleId in schedules
  }

  function PausedSchedule(s: Schedule, reason: Reason): Schedule {
    s.(state := Paused, version := s.version + 1, reason := Some(reason), nextRunAt := None)
  }

  function PauseSchedules(db: Db, sids: set<Id>, reason: Reason): Db {
    SweepRuns(
      db.(schedules := map s | s in db.schedules ::
            if s in sids then PausedSchedule(db.schedules[s], reason) else db.schedules[s]),
      RunsOf(db, sids), Stop, reason)
  }

  // ---------------------------------------------------------------- reads

  function GetInterface(db: Db, iid: Id): Done<Interface> {
    if iid !in db.interfaces then Err(NotFound)
    else if db.interfaces[iid].deleted then Err(Tombstoned)
    else Ok(db.interfaces[iid])
  }

  function GetSchedule(db: Db, sid: Id): Done<Schedule> {
    if sid !in db.schedules then Err(NotFound)
    else if db.schedules[sid].deleted then Err(Tombstoned)
    else Ok(db.schedules[sid])
  }

  function GetWorkspace(db: Db, wid: Id): Done<Workspace> {
    if wid !in db.workspaces then Err(NotFound)
    else if db.workspaces[wid].deleted then Err(Tombstoned)
    else Ok(db.workspaces[wid])
  }

  function GetRun(db: Db, rid: Id): Done<Run> {
    if rid in db.runs then Ok(db.runs[rid]) else Err(NotFound)
  }

  predicate GrantMatches(g: Grant, cfg: Config, wid: Id, model: Id, ref: GrantRef) {
    && g.workspaceId == wid && g.modelId == model && g.deviceId == cfg.device
    && g.generation == ref.generation && !g.revoked && g.synthetic
  }

  function CheckGrants(db: Db, env: Env, wid: Id, model: Id, refs: seq<GrantRef>): Outcome<Code> {
    if refs == [] then Pass
    else if refs[0].id !in db.grants then Fail(NotFound)
    else
      var g := db.grants[refs[0].id];
      if GrantMatches(g, env.cfg, wid, model, refs[0]) && g.expiresAt > env.now
      then CheckGrants(db, env, wid, model, refs[1..])
      else Fail(GrantDenied)
  }

  function CheckInterfaces(db: Db, iids: seq<Id>): Outcome<Code> {
    if iids == [] then Pass
    else match GetInterface(db, iids[0])
      case Err(code) => Fail(code)
      case Ok(_) => CheckInterfaces(db, iids[1..])
  }

  function CheckScheduleLink(db: Db, env: Env, link: ScheduleLink): Outcome<Code> {
    match GetSchedule(db, link.scheduleId)
    case Err(code) => Fail(code)
    case Ok(s) =>
      Need((s.state.Enabled? || s.state.Ended?) && s.version == link.version && s.endAt > env.now, ScheduleFenced)
  }

  /** May this run still act? Every later use of its authority passes here again. */
  function Fence(db: Db, env: Env, run: Run): Outcome<Code> {
    if !Live(run.state) then Fail(RunInactive)
    else match GetWorkspace(db, run.input.workspaceId)
      case Err(code) => Fail(code)
      case Ok(_) =>
        if run.input.modelId !in env.models then Fail(ModelUnavailable)
        else if run.deadline <= env.now then Fail(DeadlineExceeded)
        else
          var grants := CheckGrants(db, env, run.input.workspaceId, run.input.modelId, run.input.grantRefs);
          var interfaces := CheckInterfaces(db, run.input.interfaceIds);
          if grants.Fail? then grants
          else if interfaces.Fail? then interfaces
          else if run.schedule.Some? then CheckScheduleLink(db, env, run.schedule.value)
          else Pass
  }

  // ---------------------------------------------------------------- admission

  predicate ValidBudgets(b: Budgets) {
    1 <= b.maxIterations <= 8 && b.maxToolCalls <= 12 && 1 <= b.maxOutputTokens <= 4096
        && 1 <= b.maxDurationSeconds <= 180
  }

  predicate ValidRefs(refs: seq<GrantRef>) {
    && |refs| <= 16 && (forall i | 0 <= i < |refs| :: refs[i].generation >= 1)
    && forall i, j | 0 <= i < j < |refs| :: refs[i].id != refs[j].id
  }

  predicate ValidRunInput(v: RunInput) {
    && H.IsText(v.message, 16000, 1) && ValidRefs(v.grantRefs) && ValidBudgets(v.budgets)
    && |v.interfaceIds| <= 20 && (forall i, j | 0 <= i < j < |v.interfaceIds| :: v.interfaceIds[i] != v.interfaceIds[j])
    && H.ValidImport(v.importHistory)
  }

  /** The record admission or a grant leaves for a workspace: made when missing, and given its
      imported history the first time an operator run is admitted. */
  function TouchWorkspace(db: Db, wid: Id, imported: seq<H.Message>, admission: bool): Done<Db> {
    if wid in db.workspaces && db.workspaces[wid].deleted then Err(Tombstoned)
    else
      var record := if wid in db.workspaces then db.workspaces[wid] else Workspace([], false, false);
      if record.admitted && imported != [] then Err(HistoryAlreadyInitialized)
      else
        var kept := if admission && !record.admitted then record.(history := imported, admitted := true) else record;
        Ok(db.(workspaces := db.workspaces[wid := kept]))
  }

  function ActiveRuns(db: Db): set<Id> { set r | r in db.runs && !Terminal(db.runs[r].state) }

  function ConnectionsOf(db: Db, refs: seq<GrantRef>): set<Id> {
    set i | 0 <= i < |refs| && refs[i].id in db.grants :: db.grants[refs[i].id].connectionId
  }

  predicate Clashes(run: Run, wid: Id, connections: set<Id>) {
    run.input.workspaceId == wid || !(run.connections !! connections)
  }

  function AddRun(db: Db, rid: Id, run: Run): Db {
    db.(runs := db.runs[rid := run.(state := Queued, reason := None, lastSeq := 1)], runRows := db.runRows + [rid],
        events := db.events[rid := [Event(1, StateChanged(Queued, None))]])
  }

  function NewRun(db: Db, env: Env, value: RunInput, link: Option<ScheduleLink>, history: seq<H.Message>): Run {
    Run(value, link, Queued, None, env.now, env.now + 1000 * value.budgets.maxDurationSeconds, 0, history,
        ConnectionsOf(db, value.grantRefs), 0, 0, None)
  }

  /** The checks before the workspace record is touched. */
  function Admissible(db: Db, env: Env, value: RunInput, rid: Id): Outcome<Code> {
    if !ValidRunInput(value) then Fail(InvalidRequest)
    else if value.modelId !in env.models then Fail(ModelUnavailable)
    else if !env.ready then Fail(RuntimeUnavailable)
    else if rid in db.cancellations then Fail(CancelledBeforeAdmission)
    else if rid in db.runs then Fail(RunExists)
    else Pass
  }

  /** The checks after it, on the tables with the record in place. */
  function Placeable(db: Db, env: Env, value: RunInput): Outcome<Code> {
    var grants := CheckGrants(db, env, value.workspaceId, value.modelId, value.grantRefs);
    var interfaces := CheckInterfaces(db, value.interfaceIds);
    if grants.Fail? then grants
    else if interfaces.Fail? then interfaces
    else if |ActiveRuns(db)| >= QUEUE_LIMIT then Fail(CapacityExceeded)
    else Need(forall r | r in ActiveRuns(db) ::
                !Clashes(db.runs[r], value.workspaceId, ConnectionsOf(db, value.grantRefs)), RunActive)
  }

  /** Admit a run. On a refusal the tables may still differ by the workspace record: a transaction
      that ends there rolls that back too, but a scheduler pass catches the refusal and keeps it. */
  function CreateRun(db: Db, env: Env, value: RunInput, rid: Id,
                     schedule: Option<(Id, Schedule)>): (r: (Db, Outcome<Code>)) {
    var first := Admissible(db, env, value, rid);
    if first.Fail? then (db, first)
    else match TouchWorkspace(db, value.workspaceId, value.importHistory, schedule.None?)
      case Err(code) => (db, Fail(code))
      case Ok(placed) =>
        var second := Placeable(placed, env, value);
        if second.Fail? then (placed, second)
        else match schedule
          case None => (
            match H.RuntimeHistory(env.cfg.codec, placed.workspaces[value.workspaceId].history)
            case None => (placed, Fail(InvalidRequest))
            case Some(history) => (AddRun(placed, rid, NewRun(placed, env, value, None, history)), Pass))
          case Some(pair) => (
            match GetInterface(placed, pair.1.interfaceId)
            case Err(code) => (placed, Fail(code))
            case Ok(target) =>
              var link := ScheduleLink(pair.0, pair.1.version, target.revision);
              (AddRun(placed, rid, NewRun(placed, env, value, Some(link), [])), Pass))
  }

  // ---------------------------------------------------------------- proposals and interfaces

  datatype ProposalInput = ProposalInput(
    workspaceId: Id, interfaceId: Option<Id>, expectedRevision: nat, title: string, spec: string)

  predicate ValidProposal(v: ProposalInput) {
    && H.IsText(v.title, 160, 1)
    && (if v.interfaceId.Some? then v.expectedRevision >= 1 else v.expectedRevision == 0)
  }

  /** A run may propose only inside its own workspace, a scheduled run only at its own target. */
  function ProposalScope(db: Db, env: Env, v: ProposalInput, source: Option<Id>): Outcome<Code> {
    if source.None? then Pass
    else if source.value !in db.runs then Fail(NotFound)
    else
      var run := db.runs[source.value];
      var fence := Fence(db, env, run);
      if fence.Fail? then fence else Need(v.workspaceId == run.input.workspaceId, UnauthorizedScope)
  }

  function ProposalTarget(db: Db, v: ProposalInput, source: Option<Id>): Outcome<Code> {
    if v.interfaceId.Some? && GetInterface(db, v.interfaceId.value).Err? then
      Fail(GetInterface(db, v.interfaceId.value).error)
    else if v.interfaceId.Some? && GetInterface(db, v.interfaceId.value).value.revision != v.expectedRevision then
      Fail(RevisionConflict)
    else if source.Some? && source.value in db.runs && db.runs[source.value].schedule.Some? then
      var link := db.runs[source.value].schedule.value;
      (match GetSchedule(db, link.scheduleId)
      case Err(code) => Fail(code)
      case Ok(s) => Need(v.interfaceId == Some(s.interfaceId)
                         && v.expectedRevision == link.targetRevision, UnauthorizedScope))
    else Pass
  }

  function AddProposal(db: Db, v: ProposalInput, source: Option<Id>, pid: Id): Db {
    db.(proposals := db.proposals[pid :=
          Proposal(v.workspaceId, v.interfaceId, v.expectedRevision, v.title, v.spec, Pending, source)])
  }

  function Propose(db: Db, env: Env, v: ProposalInput, source: Option<Id>, pid: Id): Done<Db> {
    if !ValidProposal(v) then Err(InvalidRequest) else
    var touched :- TouchWorkspace(db, v.workspaceId, [], false);
    :- ProposalScope(touched, env, v, source);
    :- ProposalTarget(touched, v, source);
    var added := AddProposal(touched, v, source, pid);
    Ok(if source.Some? && source.value in added.runs then Emit(added, source.value, InterfaceProposed(pid)) else added)
  }

  function RevisionOf(db: Db, iid: Id): nat { if iid in db.interfaces then db.interfaces[iid].revision else 0 }

  /** Append a revision and make it the head; an interface that does not exist yet starts at 1. */
  function WriteInterface(db: Db, iid: Id, title: string, spec: string, provenance: Provenance): Db {
    var parent := RevisionOf(db, iid);
    var previous := if parent == 0 then None else Some(parent);
    db.(revisions := db.revisions[(iid, parent + 1) := Revision(title, spec, previous)],
        interfaces := db.interfaces[iid := Interface(parent + 1, title, spec, provenance, false)])
  }

  function PublishSource(db: Db, env: Env, p: Proposal, scheduled: bool): Outcome<Code> {
    if p.source.None? then Pass
    else match GetRun(db, p.source.value)
      case Err(code) => Fail(code)
      case Ok(source) =>
        if scheduled then Fence(db, env, source)
        else if !source.state.Succeeded? then Fail(RunInactive)
        else
          var grants := CheckGrants(db, env, source.input.workspaceId, source.input.modelId, source.input.grantRefs);
          if grants.Fail? then grants else Need(source.schedule.None?, UnauthorizedScope)
  }

  /** Compare-and-swap publication. Answers the tables and the interface written. */
  function Publish(db: Db, env: Env, pid: Id, expected: nat, scheduled: bool, newId: Id): Done<(Db, Id)> {
    if pid !in db.proposals then Err(NotFound) else
    var p := db.proposals[pid];
    :- Need(p.state.Pending?, ProposalInactive);
    :- Need(p.expectedRevision == expected, RevisionConflict);
    var _ :- GetWorkspace(db, p.workspaceId);
    :- PublishSource(db, env, p, scheduled);
    var current :- if p.interfaceId.Some? then GetInterface(db, p.interfaceId.value).ToOption() else Ok(None);
    :- Need((if current.Some? then current.value.revision else 0) == expected, RevisionConflict);
    var iid := if p.interfaceId.Some? then p.interfaceId.value else newId;
    var synthetic := p.source.Some? && p.source.value in db.runs && db.runs[p.source.value].input.grantRefs != [];
    var written := WriteInterface(db, iid, p.title, p.spec, Provenance(synthetic, p.source));
    var marked := written.(proposals := written.proposals[pid := p.(state := Published, interfaceId := Some(iid))]);
    Ok((if p.source.Some? && p.source.value in marked.runs
        then Emit(marked, p.source.value, InterfaceUpdated(iid, expected + 1)) else marked, iid))
  }

  function CheckInterfaceRevision(db: Db, iid: Id, expected: nat): Done<Interface> {
    var current :- GetInterface(db, iid);
    :- Need(expected >= 1, InvalidRequest);
    :- Need(current.revision == expected, RevisionConflict);
    Ok(current)
  }

  function Rename(db: Db, iid: Id, expected: nat, title: string): Done<Db> {
    var current :- CheckInterfaceRevision(db, iid, expected);
    :- Need(H.IsText(title, 160, 1), InvalidRequest);
    Ok(WriteInterface(db, iid, title, current.spec, current.provenance))
  }

  function Rollback(db: Db, iid: Id, expected: nat, target: nat): Done<Db> {
    var current :- CheckInterfaceRevision(db, iid, expected);
    :- Need(target >= 1, InvalidRequest);
    :- Need((iid, target) in db.revisions, NotFound);
    var past := db.revisions[(iid, target)];
    Ok(WriteInterface(db, iid, past.title, past.spec, current.provenance))
  }

  function RunsUsing(db: Db, iid: Id): set<Id> { set r | r in db.runs && iid in db.runs[r].input.interfaceIds }

  function SchedulesTargeting(db: Db, iid: Id): set<Id> {
    set s | s in db.schedules && !db.schedules[s].deleted && db.schedules[s].interfaceId == iid
  }

  /** Tombstone the interface; even a published proposal for it ends invalidated. */
  function BuryInterface(db: Db, iid: Id): Db
    requires iid in db.interfaces
  {
    db.(interfaces := db.interfaces[iid := db.interfaces[iid].(deleted := true)],
        proposals := map p | p in db.proposals ::
          if db.proposals[p].interfaceId == Some(iid) then db.proposals[p].(state := Invalidated) else db.proposals[p])
  }

  function DeleteInterface(db: Db, iid: Id, expected: nat): Done<Db> {
    var _ :- CheckInterfaceRevision(db, iid, expected);
    var swept := SweepRuns(db, RunsUsing(db, iid), Stop, InterfaceDeleted);
    Ok(BuryInterface(PauseSchedules(swept, SchedulesTargeting(db, iid), InterfaceDeleted), iid))
  }

  // ---------------------------------------------------------------- workspaces and grants

  function RunsIn(db: Db, wid: Id): set<Id> { set r | r in db.runs && db.runs[r].input.workspaceId == wid }

  function SchedulesIn(db: Db, wid: Id): set<Id> {
    set s | s in db.schedules && !db.schedules[s].deleted && db.schedules[s].workspaceId == wid
  }

  function BuryWorkspace(db: Db, wid: Id): Db {
    var admitted := wid in db.workspaces && db.workspaces[wid].admitted;
    db.(workspaces := db.workspaces[wid := Workspace([], admitted, true)])
  }

  function DeleteWorkspace(db: Db, wid: Id): Db {
    var swept := SweepRuns(db, RunsIn(db, wid), Stop, WorkspaceDeleted);
    BuryWorkspace(PauseSchedules(swept, SchedulesIn(db, wid), WorkspaceDeleted), wid)
  }

  datatype GrantInput = GrantInput(
    workspaceId: Id, connectionId: Id, deviceId: Id, operations: seq<GoogleTool>, modelId: Id, expiresAt: int,
        synthetic: bool)

  predicate Distinct<T(==)>(s: seq<T>) { forall i, j | 0 <= i < j < |s| :: s[i] != s[j] }

  function CreateGrant(db: Db, env: Env, v: GrantInput, gid: Id): Done<Db> {
    if v.deviceId != env.cfg.device || !v.synthetic then Err(GrantDenied) else
    :- Need(0 < |v.operations| <= 2 && Distinct(v.operations), InvalidRequest);
    :- Need(v.expiresAt > env.now, InvalidRequest);
    :- Need(v.modelId in env.models, ModelUnavailable);
    var touched :- TouchWorkspace(db, v.workspaceId, [], false);
    var grant := Grant(v.workspaceId, v.connectionId, v.deviceId, (set x | x in v.operations), v.modelId, v.expiresAt,
                       v.synthetic, 1, false);
    Ok(touched.(grants := touched.grants[gid := grant]))
  }

  function Uses(refs: seq<GrantRef>, gid: Id): bool { exists i | 0 <= i < |refs| :: refs[i].id == gid }

  function RunsGranted(db: Db, gid: Id): set<Id> { set r | r in db.runs && Uses(db.runs[r].input.grantRefs, gid) }

  function SchedulesGranted(db: Db, gid: Id): set<Id> {
    set s | s in db.schedules && !db.schedules[s].deleted && Uses(db.schedules[s].grantRefs, gid)
  }

  function Retired(g: Grant): Grant { g.(revoked := true, generation := g.generation + 1) }

  function WithdrawnRequest(t: ToolRequest): ToolRequest { t.(result := None, claim := None, state := Withdrawn) }

  function WithdrawRequests(db: Db, gone: set<Id>): Db {
    db.(tools := map t | t in db.tools :: if t in gone then WithdrawnRequest(db.tools[t]) else db.tools[t])
  }

  function RequestsGranted(db: Db, gid: Id): set<Id> { set t | t in db.tools && db.tools[t].grantRef.id == gid }

  function RevokeGrant(db: Db, gid: Id, generation: nat): Done<Db> {
    if generation < 1 then Err(InvalidRequest) else
    :- Need(gid in db.grants, NotFound);
    :- Need(db.grants[gid].generation == generation, RevisionConflict);
    var swept := SweepRuns(db, RunsGranted(db, gid), Stop, GrantRevoked);
    var paused := PauseSchedules(swept, SchedulesGranted(db, gid), GrantRevoked);
    var retired := paused.(grants := paused.grants[gid := Retired(db.grants[gid])]);
    Ok(WithdrawRequests(retired, RequestsGranted(db, gid)))
  }

  /** A provider change ends every authority at once. */
  function FenceModelConfiguration(db: Db): Db {
    var swept := SweepRuns(db, db.runs.Keys, Stop, ModelConfigurationChanged);
    var enabled := set s | s in db.schedules && !db.schedules[s].deleted && db.schedules[s].state.Enabled?;
    var paused := PauseSchedules(swept, enabled, ModelConfigurationChanged);
    WithdrawRequests(
      paused.(
        grants := map g | g in db.grants :: if db.grants[g].revoked then db.grants[g] else Retired(db.grants[g]),
        proposals := map p | p in paused.proposals ::
          if paused.proposals[p].state.Pending? then paused.proposals[p].(state := Invalidated)
              else paused.proposals[p]),
      db.tools.Keys)
  }

  // ---------------------------------------------------------------- cancelling, dispatch, recovery

  /** Stop one run, or leave a receipt that keeps its id from ever being admitted. */
  function CancelRun(db: Db, rid: Id): Db {
    if rid !in db.runs then db.(cancellations := db.cancellations + {rid})
    else if Terminal(db.runs[rid].state) then db
    else SweepRuns(db, {rid}, Stop, OperatorCancelled)
  }

  /** Hand out the first queued run whose authority still holds, blocking those before it. */
  function StartFrom(db: Db, env: Env, rows: seq<Id>): (Db, Option<Id>)
    decreases |rows|
  {
    if rows == [] then (db, None)
    else if rows[0] !in db.runs || !db.runs[rows[0]].state.Queued? then StartFrom(db, env, rows[1..])
    else match Fence(db, env, db.runs[rows[0]])
      case Fail(code) => StartFrom(Move(db, rows[0], Blocked, Some(Fault(code))), env, rows[1..])
      case Pass => (Move(db, rows[0], Running, None), Some(rows[0]))
  }

  function StartNext(db: Db, env: Env): (Db, Option<Id>) { StartFrom(db, env, db.runRows) }

  function Unfinished(db: Db): set<Id> {
    set r | r in db.runs && (Working(db.runs[r].state) || db.runs[r].state.Cancelling?)
  }

  function ReleasedRequest(t: ToolRequest): ToolRequest {
    t.(claim := None, result := None, state := if t.state.Open? || t.state.Claimed? then Withdrawn else t.state)
  }

  function Recover(db: Db): Db {
    SweepRuns(db, Unfinished(db), Interrupt, SupervisorRestarted).(
      tools := map t | t in db.tools :: ReleasedRequest(db.tools[t]))
  }

  // ---------------------------------------------------------------- work of a started run

  function Delta(db: Db, env: Env, rid: Id, text: string): Done<Db> {
    if !H.IsText(text, 16000, 0) then Err(InvalidRequest) else
    var run :- GetRun(db, rid);
    :- Fence(db, env, run);
    :- Need(run.lastSeq < EVENT_LIMIT, BudgetExceeded);
    Ok(Emit(db, rid, AssistantDelta(text)))
  }

  /** Count a model request before it leaves, against the run and against the day. */
  function ReserveModelRequest(db: Db, env: Env, rid: Id): Done<Db> {
    var run :- GetRun(db, rid);
    :- Fence(db, env, run);
    :- Need(run.modelRequests < run.input.budgets.maxIterations, BudgetExceeded);
    var day := env.now / C.DAY;
    var used := if day in db.usage then db.usage[day] else 0;
    :- Need(used < env.cfg.dailyLimit, DailyBudgetExceeded);
    Ok(PutRun(db, rid, run.(modelRequests := run.modelRequests + 1)).(usage := db.usage[day := used + 1]))
  }

  datatype ToolArgs =
    | ListInterfaces
    | ReadInterface(interfaceId: Id)
    | ProposeInterface(target: Option<Id>, expectedRevision: nat, title: string, spec: string)
    | CreateScheduleTool(schedule: ScheduleInput)
    | ReadGoogle(tool: GoogleTool, windowValid: bool)
    | UnknownTool

  datatype ScheduleInput = ScheduleInput(
    workspaceId: Id, interfaceId: Id, expectedInterfaceRevision: nat, prompt: string, modelId: Id, cron: string,
    endAt: int, maxRuns: nat, budgets: Budgets, grantRefs: seq<GrantRef>)

  predicate ValidSchedule(env: Env, v: ScheduleInput) {
    && v.expectedInterfaceRevision >= 1 && H.IsText(v.prompt, 16000, 1) && C.Parse(v.cron).Some?
    && 1 <= v.maxRuns <= 100 && ValidBudgets(v.budgets) && ValidRefs(v.grantRefs) && v.endAt > env.now
  }

  function ScheduleScope(db: Db, env: Env, v: ScheduleInput, source: Option<Id>): Outcome<Code> {
    if source.None? then Pass
    else if source.value !in db.runs then Fail(NotFound)
    else
      var run := db.runs[source.value];
      var fence := Fence(db, env, run);
      if fence.Fail? then fence
      else Need(run.schedule.None? && v.workspaceId == run.input.workspaceId && v.modelId == run.input.modelId
                && v.grantRefs == run.input.grantRefs, UnauthorizedScope)
  }

  /** A new schedule is always paused and has started nothing. */
  function CreateSchedule(db: Db, env: Env, v: ScheduleInput, source: Option<Id>, sid: Id): Done<Db> {
    if !ValidSchedule(env, v) then Err(InvalidRequest) else
    var touched :- TouchWorkspace(db, v.workspaceId, [], false);
    :- Need(v.modelId in env.models, ModelUnavailable);
    var target :- GetInterface(touched, v.interfaceId);
    :- Need(target.revision == v.expectedInterfaceRevision, RevisionConflict);
    :- CheckGrants(touched, env, v.workspaceId, v.modelId, v.grantRefs);
    :- ScheduleScope(touched, env, v, source);
    var schedule := Schedule(v.workspaceId, v.interfaceId, v.prompt, v.modelId, C.Parse(v.cron).value, v.endAt,
                             v.maxRuns,
                             v.budgets, v.grantRefs, 1, Paused, 0, None, None, None, false);
    var added := touched.(schedules := touched.schedules[sid := schedule],
                          scheduleRows := touched.scheduleRows + [sid]);
    Ok(if source.Some? && source.value in added.runs then Emit(added, source.value, ScheduleCreated(sid)) else added)
  }

  function GrantsOffering(db: Db, refs: seq<GrantRef>, tool: GoogleTool): seq<GrantRef> {
    if refs == [] then []
    else
      var rest := GrantsOffering(db, refs[1..], tool);
      if refs[0].id in db.grants && tool in db.grants[refs[0].id].operations then [refs[0]] + rest else rest
  }

  function Least(a: int, b: int): int { if a < b then a else b }

  function RequestGoogle(db: Db, env: Env, rid: Id, tool: GoogleTool, windowValid: bool, newId: Id): Done<Db>
    requires rid in db.runs
  {
    var run := db.runs[rid];
    :- Need(windowValid, InvalidRequest);
    :- CheckGrants(db, env, run.input.workspaceId, run.input.modelId, run.input.grantRefs);
    var choices := GrantsOffering(db, run.input.grantRefs, tool);
    :- Need(|choices| == 1 && choices[0].id in db.grants, GrantDenied);
    var grant := db.grants[choices[0].id];
    var request := ToolRequest(rid, grant.deviceId, grant.connectionId, GrantRef(choices[0].id, grant.generation), tool,
                               Least(run.deadline, grant.expiresAt), Open, None, 0, None, None);
    var asked := db.(tools := db.tools[newId := request]);
    Ok(Move(Emit(asked, rid, ToolRequested(newId)), rid, WaitingForDevice, Some(NativeToolRequired)))
  }

  /** A worker's tool call. The caller's identity is the run it was started for. */
  function CallTool(db: Db, env: Env, rid: Id, args: ToolArgs, newId: Id): Done<Db> {
    var run :- GetRun(db, rid);
    :- Fence(db, env, run);
    :- Need(!args.UnknownTool?, ToolDenied);
    :- Need(run.toolCalls + 1 <= run.input.budgets.maxToolCalls, BudgetExceeded);
    var counted := PutRun(db, rid, run.(toolCalls := run.toolCalls + 1));
    match args
    case ListInterfaces => Ok(counted)
    case ReadInterface(iid) => (match GetInterface(counted, iid) case Err(code) => Err(code) case Ok(_) => Ok(counted))
    case ProposeInterface(target, expected, title, spec) =>
      Propose(counted, env, ProposalInput(run.input.workspaceId, target, expected, title, spec), Some(rid), newId)
    case CreateScheduleTool(v) =>
      CreateSchedule(counted, env,
                     v.(workspaceId := run.input.workspaceId, modelId := run.input.modelId,
                        grantRefs := run.input.grantRefs),
                     Some(rid), newId)
    case ReadGoogle(tool, windowValid) => RequestGoogle(counted, env, rid, tool, windowValid, newId)
    case UnknownTool => Err(ToolDenied)
  }

  function CheckRequest(db: Db, env: Env, rid: Id, tid: Id): Done<ToolRequest> {
    var run :- GetRun(db, rid);
    :- Need(tid in db.tools, NotFound);
    var request := db.tools[tid];
    :- Need(request.runId == rid && request.deviceId == env.cfg.device, UnauthorizedScope);
    :- Fence(db, env, run);
    :- Need(request.expiresAt > env.now, Expired);
    Ok(request)
  }

  /** Lease a request to the device; a lapsed lease may be taken over. */
  function ClaimRequest(db: Db, env: Env, rid: Id, tid: Id, token: Id): Done<Db> {
    var request :- CheckRequest(db, env, rid, tid);
    :- Need(request.state.Open? || (request.state.Claimed? && request.claimUntil <= env.now), StaleClaim);
    var until := Least(request.expiresAt, env.now + CLAIM_LEASE);
    Ok(db.(tools := db.tools[tid := request.(state := Claimed, claim := Some(token), claimUntil := until)]))
  }

  /** Deliver a result under the current lease; repeating the very same delivery changes nothing. */
  function DeliverResult(db: Db, env: Env, rid: Id, tid: Id, body: ResultBody): Done<Db> {
    var request :- CheckRequest(db, env, rid, tid);
    :- Need(request.claim == Some(body.claimToken), StaleClaim);
    if request.state.Completed? then
      :- Need(request.digest == Some(body), StaleClaim);
      Ok(db)
    else
      :- Need(request.state.Claimed? && request.claimUntil > env.now, StaleClaim);
      :- Need(body.wellFormed, InvalidRequest);
      var stored := db.(tools := db.tools[tid := request.(state := Completed, result := Some(body),
                                                          digest := Some(body))]);
      Ok(Move(Emit(stored, rid, ToolResult(tid, body.succeeded)), rid, Running, None))
  }

  // ---------------------------------------------------------------- finishing a run

  datatype WorkerResult = WorkerResult(
    completed: bool, failed: bool, interrupted: bool, error: bool, finalResponse: string, messages: seq<H.Message>)

  function PendingOf(db: Db, rid: Id): set<Id> {
    set p | p in db.proposals && db.proposals[p].source == Some(rid) && db.proposals[p].state.Pending?
  }

  lemma OneElement(s: set<Id>, x: Id)
    requires |s| == 1 && x in s
    ensures s == {x}
  {
    assert |s - {x}| == 0;
  }

  function Only(s: set<Id>): (x: Id)
    requires |s| == 1
    ensures s == {x}
  {
    assert exists y :: y in s && s == {y} by {
      var y :| y in s;
      OneElement(s, y);
    }
    var x :| x in s && s == {x};
    x
  }

  function AcceptResult(env: Env, run: Run, result: Option<WorkerResult>): Done<seq<H.Message>> {
    if result.None? || !result.value.completed || result.value.failed || result.value.interrupted || result.value.error
    then Err(HermesIncomplete) else
    var text := result.value.finalResponse;
    :- Need(H.IsText(text, 64000, 0), InvalidRequest);
    :- Need(H.Utf8Bytes(text) <= 65536, BudgetExceeded);
    match H.CompletedHistory(env.cfg.codec, result.value.messages, run.history, run.input.message,
                             run.input.budgets.maxToolCalls, run.input.budgets.maxIterations)
    case None => Err(InvalidRequest)
    case Some(messages) =>
      :- Need(messages != [] && messages[|messages| - 1].Assistant? && messages[|messages| - 1].text == Some(text),
              InvalidRequest);
      Ok(messages)
  }

  /** Everything a finish may refuse, and what it commits when it does not. */
  function Complete(db: Db, env: Env, rid: Id, result: Option<WorkerResult>, failure: Option<Code>, newId: Id): Done<Db>
    requires rid in db.runs
  {
    var run := db.runs[rid];
    :- Fence(db, env, run);
    :- Need(failure.None?, if failure.Some? then failure.value else InvalidRequest);
    var messages :- AcceptResult(env, run, result);
    var published :- if run.schedule.Some? then PublishRefresh(db, env, rid, run.schedule.value, newId)
                     else CommitHistory(db, run.input.workspaceId, messages);
    :- Need(rid in published.runs, NotFound);
    var text := result.value.finalResponse;
    var named := PutRun(published, rid, published.runs[rid].(finalMessage := Some(text)));
    Ok(Move(Emit(named, rid, AssistantMessage(text)), rid, Succeeded, None))
  }

  function PublishRefresh(db: Db, env: Env, rid: Id, link: ScheduleLink, newId: Id): Done<Db> {
    var pending := PendingOf(db, rid);
    :- Need(|pending| == 1, InvalidRefresh);
    var done :- Publish(db, env, Only(pending), link.targetRevision, true, newId);
    Ok(done.0)
  }

  function CommitHistory(db: Db, wid: Id, messages: seq<H.Message>): Done<Db> {
    var ws :- GetWorkspace(db, wid);
    Ok(db.(workspaces := db.workspaces[wid := ws.(history := messages)]))
  }

  function FailureState(code: Code): RunState {
    if code.DeadlineExceeded? || code.GrantDenied? || code.DeviceUnavailable? then Blocked else Failed
  }

  function ClosedRequest(t: ToolRequest): ToolRequest {
    t.(result := None, claim := None, state := if t.state.Completed? then Completed else Withdrawn)
  }

  function CloseRequests(db: Db, rid: Id): Db {
    db.(tools := map t | t in db.tools :: if db.tools[t].runId == rid then ClosedRequest(db.tools[t]) else db.tools[t])
  }

  /** End a run. A run already over stays as it is; one being cancelled ends cancelled, and its
      tool results are left in place. */
  function Finish(db: Db, env: Env, rid: Id, result: Option<WorkerResult>, failure: Option<Code>, newId: Id): Done<Db> {
    var run :- GetRun(db, rid);
    if Terminal(run.state) then Ok(db)
    else if run.state.Cancelling? then
      Ok(DropProposals(Move(db, rid, Cancelled, if run.reason.Some? then run.reason else Some(Stopped)), {rid}))
    else match Complete(db, env, rid, result, failure, newId)
      case Ok(done) => Ok(CloseRequests(done, rid))
      case Err(code) =>
        var failed := Move(DropProposals(db, {rid}), rid, FailureState(code), Some(Fault(code)));
        Ok(CloseRequests(Emit(failed, rid, ErrorRaised(code)), rid))
  }

  // ---------------------------------------------------------------- schedules

  function CheckSchedule(db: Db, sid: Id, expected: nat): Done<Schedule> {
    var s :- GetSchedule(db, sid);
    :- Need(expected >= 1, InvalidRequest);
    :- Need(s.version == expected, RevisionConflict);
    Ok(s)
  }

  datatype Consent = Consent(scheduleVersion: nat, modelId: Id, grantRefs: seq<GrantRef>)

  function EnableSchedule(db: Db, env: Env, sid: Id, expected: nat, consent: Consent): Done<Db> {
    var s :- CheckSchedule(db, sid, expected);
    :- Need(consent == Consent(s.version, s.modelId, s.grantRefs), ConsentMismatch);
    :- Need(env.ready, RuntimeUnavailable);
    var _ :- GetWorkspace(db, s.workspaceId);
    var _ :- GetInterface(db, s.interfaceId);
    :- CheckGrants(db, env, s.workspaceId, s.modelId, s.grantRefs);
    :- Need(s.modelId in env.models, ModelUnavailable);
    :- Need(s.runsStarted < s.maxRuns && s.endAt > env.now, ScheduleEnded);
    var due := C.NextDue(s.cron, env.cfg.calendar, env.now, s.endAt);
    :- Need(due.Some?, InvalidRequest);
    Ok(db.(schedules := db.schedules[sid := s.(state := Enabled, version := s.version + 1, nextRunAt := due,
                                               reason := None)]))
  }

  function PauseSchedule(db: Db, sid: Id, expected: nat): Done<Db> {
    var _ :- CheckSchedule(db, sid, expected);
    Ok(PauseSchedules(db, {sid}, OperatorPaused))
  }

  function DeleteSchedule(db: Db, sid: Id, expected: nat): Done<Db> {
    var _ :- CheckSchedule(db, sid, expected);
    var paused := PauseSchedules(db, {sid}, ScheduleDeleted);
    :- Need(sid in paused.schedules, NotFound);
    Ok(paused.(schedules := paused.schedules[sid := paused.schedules[sid].(deleted := true)]))
  }

  function ScheduledInput(s: Schedule): RunInput {
    RunInput(s.workspaceId, s.prompt, s.modelId, s.grantRefs, [s.interfaceId], s.budgets, [])
  }

  /** Record what became of a due minute and set the next one. */
  function Settle(db: Db, sid: Id, s: Schedule, slot: int, outcome: Occurrence): Db {
    db.(occurrences := db.occurrences[(sid, slot) := outcome], schedules := db.schedules[sid := s])
  }

  /** The due minute of an enabled schedule: missed when a minute old, else one admission attempt. */
  function Attempt(db: Db, env: Env, sid: Id, due: int, newId: Id): Db
    requires sid in db.schedules
  {
    var s := db.schedules[sid].(nextRunAt := C.NextDue(db.schedules[sid].cron, env.cfg.calendar, env.now,
                                                       db.schedules[sid].endAt));
    if env.now - due >= C.MINUTE then Settle(db, sid, s, due, Missed)
    else
      var (placed, outcome) := CreateRun(db, env, ScheduledInput(s), newId, Some((sid, s)));
      match outcome
      case Fail(code) => Settle(placed, sid, s.(reason := Some(Fault(code))), due, Refused(code))
      case Pass => Settle(placed, sid, s.(runsStarted := s.runsStarted + 1, lastRunId := Some(newId)), due,
                          Admitted(newId))
  }

  function TickOne(db: Db, env: Env, sid: Id, newId: Id): Db {
    if sid !in db.schedules || db.schedules[sid].deleted || !db.schedules[sid].state.Enabled? then db
    else
      var s := db.schedules[sid];
      if s.endAt <= env.now || s.runsStarted >= s.maxRuns then
        db.(schedules := db.schedules[sid := s.(state := Ended, nextRunAt := None)])
      else if s.nextRunAt.None? || s.nextRunAt.value > env.now || (sid, s.nextRunAt.value) in db.occurrences then db
      else Attempt(db, env, sid, s.nextRunAt.value, newId)
  }

  /** One scheduler pass over the schedules in row order. */
  function Tick(db: Db, env: Env, rows: seq<Id>, newIds: seq<Id>): Db
    requires |newIds| == |rows|
    decreases |rows|
  {
    if rows == [] then db else Tick(TickOne(db, env, rows[0], newIds[0]), env, rows[1..], newIds[1..])
  }
}
