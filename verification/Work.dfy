/** The work of a started run, from its first delta to its end, keeps the joint invariant. */
module Work {
  import opened Wrappers
  import opened Engine
  import opened Invariant
  import opened Frames
  import opened RunSteps
  import opened Authority
  import opened Publication
  import opened Scheduling
  import H = History
  import HL = HistoryLaws

  // ---------------------------------------------------------------- deltas, budgets, tools

  lemma DeltaKeepsInv(db: Db, env: Env, rid: Id, text: string)
    requires Inv(db, env.cfg, env.now) && Delta(db, env, rid, text).Ok?
    ensures Sound(db, Delta(db, env, rid, text).value, env.cfg, env.now)
  {
    hide Inv, Advances, Fence, Emit, H.IsText;
    EmitKeepsInv(db, rid, AssistantDelta(text), env.cfg, env.now);
  }

  lemma UsageKeepsInv(db: Db, usage: map<int, nat>, cfg: Config, clock: int)
    requires Inv(db, cfg, clock) && UsageInv(usage, cfg.dailyLimit)
    ensures Sound(db, db.(usage := usage), cfg, clock)
  {
    RequestsKeepInv(db, db.(usage := usage), cfg, clock);
  }

  lemma UsageOf(db: Db, cfg: Config, clock: int)
    requires Inv(db, cfg, clock)
    ensures UsageInv(db.usage, cfg.dailyLimit)
  {}

  lemma ReserveKeepsInv(db: Db, env: Env, rid: Id)
    requires Inv(db, env.cfg, env.now) && ReserveModelRequest(db, env, rid).Ok?
    ensures Sound(db, ReserveModelRequest(db, env, rid).value, env.cfg, env.now)
  {
    hide Inv, Advances, Fence;
    LogOf(db, rid, env.cfg, env.now);
    UsageOf(db, env.cfg, env.now);
    var b := ReserveModelRequest(db, env, rid).value;
    var run := db.runs[rid].(modelRequests := db.runs[rid].modelRequests + 1);
    CountKeepsInv(db, rid, run, env.cfg, env.now);
    UsageKeepsInv(PutRun(db, rid, run), b.usage, env.cfg, env.now);
    Then(db, PutRun(db, rid, run), b, env.cfg, env.now);
  }

  lemma RequestPlaced(db: Db, tid: Id, request: ToolRequest, cfg: Config, clock: int)
    requires Inv(db, cfg, clock) && request.runId in db.runs && !db.runs[request.runId].state.Queued?
    ensures Sound(db, db.(tools := db.tools[tid := request]), cfg, clock)
  {
    var tools := db.tools[tid := request];
    assert RequestsInv(db.tools, db.runs);
    assert RequestsInv(tools, db.runs);
    hide Inv, Advances;
    RequestsKeepInv(db, db.(tools := tools), cfg, clock);
  }

  lemma RequestGoogleKeepsInv(db: Db, env: Env, rid: Id, tool: GoogleTool, windowValid: bool, newId: Id)
    requires Inv(db, env.cfg, env.now) && rid in db.runs && Working(db.runs[rid].state)
    requires RequestGoogle(db, env, rid, tool, windowValid, newId).Ok?
    ensures Sound(db, RequestGoogle(db, env, rid, tool, windowValid, newId).value, env.cfg, env.now)
  {
    hide Inv, Advances, CheckGrants, GrantsOffering, Emit, Move;
    var grant := db.grants[GrantsOffering(db, db.runs[rid].input.grantRefs, tool)[0].id];
    var request := ToolRequest(rid, grant.deviceId, grant.connectionId,
                               GrantRef(GrantsOffering(db, db.runs[rid].input.grantRefs, tool)[0].id, grant.generation),
                                   tool,
                               Least(db.runs[rid].deadline, grant.expiresAt), Open, None, 0, None, None);
    var asked := db.(tools := db.tools[newId := request]);
    RequestPlaced(db, newId, request, env.cfg, env.now);
    RecordThenMove(asked, rid, ToolRequested(newId), WaitingForDevice, Some(NativeToolRequired), env.cfg, env.now);
    Then(db, asked, Move(Emit(asked, rid, ToolRequested(newId)), rid, WaitingForDevice, Some(NativeToolRequired)),
         env.cfg, env.now);
  }

  lemma EmittedRun(db: Db, rid: Id, kind: EventKind)
    requires rid in db.runs
    ensures Emit(db, rid, kind).runs == db.runs[rid := db.runs[rid].(lastSeq := db.runs[rid].lastSeq + 1)]
  {}

  lemma RecordThenMove(db: Db, rid: Id, kind: EventKind, state: RunState, reason: Option<Reason>, cfg: Config,
                       clock: int)
    requires Inv(db, cfg, clock) && rid in db.runs && Working(db.runs[rid].state) && Working(state)
    requires !kind.StateChanged? && !kind.InterfaceUpdated?
    ensures rid in Emit(db, rid, kind).runs
    ensures Sound(db, Move(Emit(db, rid, kind), rid, state, reason), cfg, clock)
  {
    hide Inv, Advances, Emit, Move;
    EmitKeepsInv(db, rid, kind, cfg, clock);
    var mid := Emit(db, rid, kind);
    EmittedRun(db, rid, kind);
    MoveKeepsInv(mid, rid, state, reason, cfg, clock);
    Then(db, mid, Move(mid, rid, state, reason), cfg, clock);
  }

  /** The work a tool does once the call is counted. */
  lemma ToolKeepsInv(db: Db, counted: Db, env: Env, rid: Id, args: ToolArgs, newId: Id)
    requires Inv(counted, env.cfg, env.now) && Unused(counted, newId) && CallTool(db, env, rid, args, newId).Ok?
    requires rid in db.runs && rid in counted.runs && Working(counted.runs[rid].state)
    requires counted == PutRun(db, rid, db.runs[rid].(toolCalls := db.runs[rid].toolCalls + 1))
    ensures Sound(counted, CallTool(db, env, rid, args, newId).value, env.cfg, env.now)
  {
    hide Inv, Advances, Fence, Propose, CreateSchedule, RequestGoogle;
    var run := db.runs[rid];
    match args {
      case ListInterfaces => Same(counted, env.cfg, env.now);
      case ReadInterface(_) => Same(counted, env.cfg, env.now);
      case ProposeInterface(target, expected, title, spec) =>
        ProposeKeepsInv(counted, env, ProposalInput(run.input.workspaceId, target, expected, title, spec), Some(rid),
                        newId);
      case CreateScheduleTool(v) =>
        CreateScheduleKeepsInv(counted, env,
          v.(workspaceId := run.input.workspaceId, modelId := run.input.modelId, grantRefs := run.input.grantRefs),
              Some(rid), newId);
      case ReadGoogle(tool, windowValid) => RequestGoogleKeepsInv(counted, env, rid, tool, windowValid, newId);
      case UnknownTool =>
    }
  }

  /** A worker's call, made for a run that was handed out. */
  lemma CallToolKeepsInv(db: Db, env: Env, rid: Id, args: ToolArgs, newId: Id)
    requires Inv(db, env.cfg, env.now) && Unused(db, newId) && CallTool(db, env, rid, args, newId).Ok?
    requires rid in db.runs ==> !db.runs[rid].state.Queued?
    ensures Sound(db, CallTool(db, env, rid, args, newId).value, env.cfg, env.now)
  {
    hide Inv, Advances, Fence;
    CallIsFenced(db, env, rid, args, newId);
    LogOf(db, rid, env.cfg, env.now);
    hide CallTool;
    var run := db.runs[rid].(toolCalls := db.runs[rid].toolCalls + 1);
    var counted := PutRun(db, rid, run);
    CountKeepsInv(db, rid, run, env.cfg, env.now);
    ToolKeepsInv(db, counted, env, rid, args, newId);
    Then(db, counted, CallTool(db, env, rid, args, newId).value, env.cfg, env.now);
  }

  lemma CallIsFenced(db: Db, env: Env, rid: Id, args: ToolArgs, newId: Id)
    requires CallTool(db, env, rid, args, newId).Ok?
    ensures rid in db.runs && Live(db.runs[rid].state)
    ensures db.runs[rid].toolCalls < db.runs[rid].input.budgets.maxToolCalls
  {
    hide Propose, CreateSchedule, RequestGoogle;
  }

  lemma CheckedRequest(db: Db, env: Env, rid: Id, tid: Id)
    requires RequestsInv(db.tools, db.runs) && CheckRequest(db, env, rid, tid).Ok?
    ensures rid in db.runs && tid in db.tools && db.tools[tid].runId == rid
    ensures CheckRequest(db, env, rid, tid).value == db.tools[tid] && Working(db.runs[rid].state)
  {
    FencedRun(db, env, db.runs[rid]);
    hide Fence;
  }

  lemma ClaimKeepsInv(db: Db, env: Env, rid: Id, tid: Id, token: Id)
    requires Inv(db, env.cfg, env.now) && ClaimRequest(db, env, rid, tid, token).Ok?
    ensures Sound(db, ClaimRequest(db, env, rid, tid, token).value, env.cfg, env.now)
  {
    hide Inv, Advances, CheckRequest;
    RequestsOf(db, env.cfg, env.now);
    CheckedRequest(db, env, rid, tid);
    RequestPlaced(db, tid, ClaimRequest(db, env, rid, tid, token).value.tools[tid], env.cfg, env.now);
  }

  lemma RequestsOf(db: Db, cfg: Config, clock: int)
    requires Inv(db, cfg, clock)
    ensures RequestsInv(db.tools, db.runs)
  {}

  lemma AcceptedKeepsInv(db: Db, env: Env, rid: Id, tid: Id, body: ResultBody)
    requires Inv(db, env.cfg, env.now) && rid in db.runs && Working(db.runs[rid].state)
    requires tid in db.tools && db.tools[tid].runId == rid
    ensures var closed := db.tools[tid].(state := Completed, result := Some(body), digest := Some(body));
            Sound(db, Move(Emit(db.(tools := db.tools[tid := closed]), rid, ToolResult(tid, body.succeeded)), rid,
                           Running, None), env.cfg, env.now)
  {
    hide Inv, Advances, Emit, Move;
    var closed := db.tools[tid].(state := Completed, result := Some(body), digest := Some(body));
    var stored := db.(tools := db.tools[tid := closed]);
    RequestPlaced(db, tid, closed, env.cfg, env.now);
    RecordThenMove(stored, rid, ToolResult(tid, body.succeeded), Running, None, env.cfg, env.now);
    Then(db, stored, Move(Emit(stored, rid, ToolResult(tid, body.succeeded)), rid, Running, None), env.cfg, env.now);
  }

  lemma DeliverKeepsInv(db: Db, env: Env, rid: Id, tid: Id, body: ResultBody)
    requires Inv(db, env.cfg, env.now) && DeliverResult(db, env, rid, tid, body).Ok?
    ensures Sound(db, DeliverResult(db, env, rid, tid, body).value, env.cfg, env.now)
  {
    hide Inv, Advances, CheckRequest, Emit, Move;
    RequestsOf(db, env.cfg, env.now);
    CheckedRequest(db, env, rid, tid);
    if db.tools[tid].state.Completed? {
      Same(db, env.cfg, env.now);
    } else {
      AcceptedKeepsInv(db, env, rid, tid, body);
    }
  }

  // ---------------------------------------------------------------- ending without success

  /** The run's pending proposals go with it. */
  lemma DroppedFollow(db: Db, b: Db, rid: Id)
    requires ProposalsInv(db.proposals, db.runs, db.schedules) && rid in b.runs
    requires b.runs == db.runs[rid := b.runs[rid]] && b.schedules == db.schedules
    ensures ProposalsInv(DropProposals(db, {rid}).proposals, b.runs, b.schedules)
  {
    var after := DropProposals(db, {rid}).proposals;
    forall p | p in after ensures ProposalInv(after[p], b.runs, b.schedules) {
      assert ProposalInv(db.proposals[p], db.runs, db.schedules);
    }
  }

  lemma EndKeepsInv(db: Db, rid: Id, state: RunState, reason: Option<Reason>, cfg: Config, clock: int)
    requires Inv(db, cfg, clock) && rid in db.runs && !Terminal(db.runs[rid].state)
    requires Terminal(state) && !state.Succeeded?
    ensures Sound(db, Move(DropProposals(db, {rid}), rid, state, reason), cfg, clock)
  {
    hide RowsOf, LogsInv, ExclusiveInv, LiveInv, HistoryInv, ChainInv, ProposalsInv, RequestsInv, RefreshesInv,
        SchedulesInv;
    hide ProposalsAdvance, DropProposals;
    LogOf(db, rid, cfg, clock);
    DropElsewhere(db, {rid});
    var b := Move(DropProposals(db, {rid}), rid, state, reason);
    Appended(db.runs[rid], db.events[rid], b.runs[rid], StateChanged(state, reason));
    DropAdvances(db, {rid});
    DroppedFollow(db, b, rid);
    OneRunKeepsInv(db, b, rid, cfg, clock);
  }

  lemma DropElsewhere(db: Db, sources: set<Id>)
    ensures DropProposals(db, sources) == db.(proposals := DropProposals(db, sources).proposals)
  {}

  lemma CloseKeepsInv(db: Db, rid: Id, cfg: Config, clock: int)
    requires Inv(db, cfg, clock)
    ensures Sound(db, CloseRequests(db, rid), cfg, clock)
  {
    hide Inv, Advances;
    RequestsKept(db, CloseRequests(db, rid).tools, cfg, clock);
  }

  lemma FailKeepsInv(db: Db, rid: Id, code: Code, cfg: Config, clock: int)
    requires Inv(db, cfg, clock) && rid in db.runs && !Terminal(db.runs[rid].state)
    ensures var failed := Move(DropProposals(db, {rid}), rid, FailureState(code), Some(Fault(code)));
            Sound(db, CloseRequests(Emit(failed, rid, ErrorRaised(code)), rid), cfg, clock)
  {
    hide Inv, Advances, DropProposals, Emit, CloseRequests;
    DropElsewhere(db, {rid});
    EndKeepsInv(db, rid, FailureState(code), Some(Fault(code)), cfg, clock);
    var failed := Move(DropProposals(db, {rid}), rid, FailureState(code), Some(Fault(code)));
    assert rid in failed.runs by {
      MovedIsARun(DropProposals(db, {rid}), db, rid, FailureState(code), Some(Fault(code)));
    }
    hide Move;
    EmitKeepsInv(failed, rid, ErrorRaised(code), cfg, clock);
    var told := Emit(failed, rid, ErrorRaised(code));
    Then(db, failed, told, cfg, clock);
    CloseKeepsInv(told, rid, cfg, clock);
    Then(db, told, CloseRequests(told, rid), cfg, clock);
  }

  lemma MovedIsARun(dropped: Db, db: Db, rid: Id, state: RunState, reason: Option<Reason>)
    requires dropped == DropProposals(db, {rid}) && rid in db.runs
    ensures rid in dropped.runs && rid in Move(dropped, rid, state, reason).runs
  {}

  // ---------------------------------------------------------------- success

  function Succeed(db: Db, rid: Id, text: string): Db
    requires rid in db.runs
  {
    Move(Emit(PutRun(db, rid, db.runs[rid].(finalMessage := Some(text))), rid, AssistantMessage(text)), rid, Succeeded,
         None)
  }

  /** The row and the log of a run that succeeds. */
  function SucceededRun(run: Run, text: string): Run {
    run.(finalMessage := Some(text), state := Succeeded, reason := None, lastSeq := run.lastSeq + 2)
  }

  function SucceededLog(run: Run, log: seq<Event>, text: string): seq<Event> {
    log + [Event(run.lastSeq + 1, AssistantMessage(text))] + [Event(run.lastSeq + 2, StateChanged(Succeeded, None))]
  }

  lemma SucceedIs(db: Db, rid: Id, text: string)
    requires rid in db.runs && rid in db.events
    ensures Succeed(db, rid, text) ==
            db.(runs := db.runs[rid := SucceededRun(db.runs[rid], text)],
                events := db.events[rid := SucceededLog(db.runs[rid], db.events[rid], text)])
  {
    var run := db.runs[rid];
    var named := run.(finalMessage := Some(text));
    var told := named.(lastSeq := run.lastSeq + 1);
    var half := told.(state := Succeeded, reason := None);
    assert db.runs[rid := named][rid := told][rid := half][rid := SucceededRun(run, text)] ==
           db.runs[rid := SucceededRun(run, text)];
    var log := db.events[rid] + [Event(run.lastSeq + 1, AssistantMessage(text))];
    assert db.events[rid := log][rid := SucceededLog(run, db.events[rid], text)] ==
           db.events[rid := SucceededLog(run, db.events[rid], text)];
  }

  lemma SucceededSteps(run: Run, log: seq<Event>, text: string)
    requires LogInv(run, log) && !Terminal(run.state)
    ensures RunStep(run, log, SucceededRun(run, text), SucceededLog(run, log, text))
    ensures Updates(SucceededLog(run, log, text)) == Updates(log)
  {
    var told := run.(finalMessage := Some(text), lastSeq := run.lastSeq + 1);
    Appended(run, log, told, AssistantMessage(text));
    Appended(told, log + [Event(run.lastSeq + 1, AssistantMessage(text))], SucceededRun(run, text),
             StateChanged(Succeeded, None));
    hide LogInv, Updates;
  }

  lemma SucceedSteps(db: Db, rid: Id, text: string)
    requires rid in db.runs && rid in db.events && LogInv(db.runs[rid], db.events[rid]) && !Terminal(db.runs[rid].state)
    ensures var b := Succeed(db, rid, text);
            && OnlyRun(db, b, rid) && b.proposals == db.proposals && b.runs[rid].state.Succeeded?
            && b.runs[rid].schedule == db.runs[rid].schedule
            && RunStep(db.runs[rid], db.events[rid], b.runs[rid], b.events[rid])
            && Updates(b.events[rid]) == Updates(db.events[rid])
  {
    hide LogInv, RunStep, Succeed, SucceededLog;
    SucceedIs(db, rid, text);
    SucceededSteps(db.runs[rid], db.events[rid], text);
  }

  lemma OperatorSucceeds(db: Db, rid: Id, text: string, cfg: Config, clock: int)
    requires Inv(db, cfg, clock) && rid in db.runs && !Terminal(db.runs[rid].state) && db.runs[rid].schedule.None?
    ensures Sound(db, Succeed(db, rid, text), cfg, clock)
  {
    hide RowsOf, LogsInv, ExclusiveInv, LiveInv, HistoryInv, ChainInv, ProposalsInv, RequestsInv, RefreshesInv,
        SchedulesInv;
    hide Succeed, RunStep;
    LogOf(db, rid, cfg, clock);
    SucceedSteps(db, rid, text);
    RecordKeepsInv(db, Succeed(db, rid, text), rid, cfg, clock);
  }

  /** The workspace of a finishing run has no other run that captured its history. */
  lemma AloneInWorkspace(db: Db, rid: Id, q: Id)
    requires ExclusiveInv(db.runs) && rid in db.runs && q in db.runs && q != rid
    requires !Terminal(db.runs[rid].state) && !Terminal(db.runs[q].state)
    ensures db.runs[q].input.workspaceId != db.runs[rid].input.workspaceId
  {
    assert Apart(db.runs[q], db.runs[rid]);
  }

  lemma CommittedHistories(cfg: Config, a: map<Id, Workspace>, runs: map<Id, Run>, wid: Id, h: seq<H.Message>)
    requires HistoryInv(cfg, a, runs) && wid in a && !a[wid].deleted && a[wid].admitted && HL.Stored(cfg.codec, h)
    requires forall r | r in runs && Live(runs[r].state) && runs[r].schedule.None? :: runs[r].input.workspaceId != wid
    ensures HistoryInv(cfg, a[wid := a[wid].(history := h)], runs)
  {
    var b := a[wid := a[wid].(history := h)];
    assert WorkspaceInv(cfg, b[wid]);
    hide WorkspaceInv;
    forall r | r in runs ensures CapturedInv(b, runs[r]) {
      assert CapturedInv(a, runs[r]);
    }
  }

  lemma CommitKeepsInv(db: Db, wid: Id, h: seq<H.Message>, cfg: Config, clock: int)
    requires Inv(db, cfg, clock) && WorkspaceLive(db.workspaces, wid) && db.workspaces[wid].admitted
    requires db.workspaces[wid].history <= h && HL.Stored(cfg.codec, h)
    requires forall r | r in db.runs && Live(db.runs[r].state) && db.runs[r].schedule.None? ::
             db.runs[r].input.workspaceId != wid
    ensures Sound(db, db.(workspaces := db.workspaces[wid := db.workspaces[wid].(history := h)]), cfg, clock)
  {
    hide RowsOf, LogsInv, ExclusiveInv, LiveInv, HistoryInv, ChainInv, ProposalsInv, RequestsInv, RefreshesInv,
        SchedulesInv;
    hide HL.Stored;
    var b := db.(workspaces := db.workspaces[wid := db.workspaces[wid].(history := h)]);
    CommittedHistories(cfg, db.workspaces, db.runs, wid, h);
    LiveGrows(db, b, cfg);
    WorkspacesKeepInv(db, b, cfg, clock);
  }

  /** What an active operator run captured is what its live workspace has committed. */
  lemma CapturedIsCommitted(db: Db, rid: Id, cfg: Config, clock: int)
    requires Inv(db, cfg, clock) && rid in db.runs && Live(db.runs[rid].state) && db.runs[rid].schedule.None?
    ensures var wid := db.runs[rid].input.workspaceId;
            && WorkspaceLive(db.workspaces, wid) && db.workspaces[wid].admitted
            && db.runs[rid].history == db.workspaces[wid].history && HL.Stored(cfg.codec, db.runs[rid].history)
  {
    hide RowsOf, LogsInv, ExclusiveInv, LiveInv, ChainInv, ProposalsInv, RequestsInv, RefreshesInv, SchedulesInv;
    assert CapturedInv(db.workspaces, db.runs[rid]);
    assert WorkspaceInv(cfg, db.workspaces[db.runs[rid].input.workspaceId]);
  }

  lemma AcceptedExtends(env: Env, run: Run, result: Option<WorkerResult>)
    requires HL.Stored(env.cfg.codec, run.history) && AcceptResult(env, run, result).Ok?
    ensures var h := AcceptResult(env, run, result).value;
            run.history < h && h[|run.history|] == H.User(run.input.message, None) && HL.Stored(env.cfg.codec, h)
  {
    HL.CompletedExtends(env.cfg.codec, result.value.messages, run.history, run.input.message,
                        run.input.budgets.maxToolCalls, run.input.budgets.maxIterations);
    hide H.CompletedHistory, H.IsText, H.Utf8Bytes, HL.Stored;
  }

  lemma OperatorFinishKeepsInv(db: Db, env: Env, rid: Id, result: Option<WorkerResult>, failure: Option<Code>,
                               newId: Id)
    requires Inv(db, env.cfg, env.now) && rid in db.runs && db.runs[rid].schedule.None?
    requires Complete(db, env, rid, result, failure, newId).Ok?
    ensures Sound(db, Complete(db, env, rid, result, failure, newId).value, env.cfg, env.now)
  {
    hide Inv, Advances, AcceptResult, Fence, Succeed, HL.Stored;
    var run := db.runs[rid];
    var wid := run.input.workspaceId;
    FencedRun(db, env, run);
    CapturedIsCommitted(db, rid, env.cfg, env.now);
    AcceptedExtends(env, run, result);
    OperatorCommits(db, env, rid, result, failure, newId);
    hide Complete;
    var h := AcceptResult(env, run, result).value;
    var text := result.value.finalResponse;
    var mid := Succeed(db, rid, text);
    OperatorSucceeds(db, rid, text, env.cfg, env.now);
    SucceedElsewhere(db, rid, text);
    forall r | r in mid.runs && Live(mid.runs[r].state) && mid.runs[r].schedule.None?
      ensures mid.runs[r].input.workspaceId != wid
    {
      assert r != rid;
      AloneHere(db, rid, r, env.cfg, env.now);
    }
    CommitKeepsInv(mid, wid, h, env.cfg, env.now);
    var b := mid.(workspaces := mid.workspaces[wid := mid.workspaces[wid].(history := h)]);
    Then(db, mid, b, env.cfg, env.now);
  }

  lemma AloneHere(db: Db, rid: Id, q: Id, cfg: Config, clock: int)
    requires Inv(db, cfg, clock) && rid in db.runs && q in db.runs && q != rid && Live(db.runs[rid].state)
             && Live(db.runs[q].state)
    ensures db.runs[q].input.workspaceId != db.runs[rid].input.workspaceId
  {
    hide RowsOf, LogsInv, LiveInv, HistoryInv, ChainInv, ProposalsInv, RequestsInv, RefreshesInv, SchedulesInv,
        ExclusiveInv;
    AloneInWorkspace(db, rid, q);
  }

  lemma SucceedElsewhere(db: Db, rid: Id, text: string)
    requires rid in db.runs
    ensures var b := Succeed(db, rid, text);
            && b == db.(runs := b.runs, events := b.events) && b.runs == db.runs[rid := b.runs[rid]]
            && b.runs[rid].state.Succeeded?
  {}

  lemma EmitCommutes(db: Db, rid: Id, kind: EventKind, workspaces: map<Id, Workspace>)
    requires rid in db.runs
    ensures Emit(db.(workspaces := workspaces), rid, kind) == Emit(db, rid, kind).(workspaces := workspaces)
    ensures rid in Emit(db, rid, kind).runs
  {}

  lemma MoveCommutes(db: Db, rid: Id, state: RunState, workspaces: map<Id, Workspace>)
    requires rid in db.runs
    ensures Move(db.(workspaces := workspaces), rid, state, None) ==
            Move(db, rid, state, None).(workspaces := workspaces)
  {
    hide Emit;
    EmitCommutes(PutRun(db, rid, db.runs[rid].(state := state, reason := None)), rid, StateChanged(state, None),
                 workspaces);
  }

  /** The order of the two writes of an operator's success does not matter. */
  lemma SucceedCommutes(db: Db, rid: Id, text: string, workspaces: map<Id, Workspace>)
    requires rid in db.runs
    ensures Succeed(db.(workspaces := workspaces), rid, text) == Succeed(db, rid, text).(workspaces := workspaces)
  {
    hide Emit, Move;
    var named := PutRun(db, rid, db.runs[rid].(finalMessage := Some(text)));
    EmitCommutes(named, rid, AssistantMessage(text), workspaces);
    MoveCommutes(Emit(named, rid, AssistantMessage(text)), rid, Succeeded, workspaces);
  }

  lemma OperatorCommits(db: Db, env: Env, rid: Id, result: Option<WorkerResult>, failure: Option<Code>, newId: Id)
    requires rid in db.runs && db.runs[rid].schedule.None? && Complete(db, env, rid, result, failure, newId).Ok?
    ensures var h := AcceptResult(env, db.runs[rid], result).value;
            var wid := db.runs[rid].input.workspaceId;
            && wid in db.workspaces && result.Some?
            && var mid := Succeed(db, rid, result.value.finalResponse);
            Complete(db, env, rid, result, failure, newId).value ==
              mid.(workspaces := db.workspaces[wid := db.workspaces[wid].(history := h)])
  {
    hide AcceptResult, Fence, Move, Emit, PutRun;
    assert result.Some? by { AcceptedIsSome(env, db.runs[rid], result); }
    var h := AcceptResult(env, db.runs[rid], result).value;
    var wid := db.runs[rid].input.workspaceId;
    assert CommitHistory(db, wid, h).Ok?;
    var workspaces := db.workspaces[wid := db.workspaces[wid].(history := h)];
    SucceedCommutes(db, rid, result.value.finalResponse, workspaces);
  }

  lemma AcceptedIsSome(env: Env, run: Run, result: Option<WorkerResult>)
    requires AcceptResult(env, run, result).Ok?
    ensures result.Some?
  {}

  // ---------------------------------------------------------------- a scheduled success

  /** The publication, the closing message and the success of a scheduled run, on its row. */
  function Refreshed(db: Db, rid: Id, kind: EventKind, text: string): Db
    requires rid in db.runs
  {
    Succeed(Emit(db, rid, kind), rid, text)
  }

  lemma RefreshedSteps(db: Db, rid: Id, kind: EventKind, text: string)
    requires rid in db.runs && rid in db.events && LogInv(db.runs[rid], db.events[rid]) && !Terminal(db.runs[rid].state)
    requires kind.InterfaceUpdated? && Updates(db.events[rid]) == []
    ensures var b := Refreshed(db, rid, kind, text);
            && OnlyRun(db, b, rid) && b.proposals == db.proposals && b.runs[rid].state.Succeeded?
            && b.runs[rid].schedule == db.runs[rid].schedule
            && RunStep(db.runs[rid], db.events[rid], b.runs[rid], b.events[rid])
            && Updates(b.events[rid]) == [kind]
  {
    hide LogInv, Updates, Succeed;
    var told := Emit(db, rid, kind);
    Appended(db.runs[rid], db.events[rid], told.runs[rid], kind);
    SucceedSteps(told, rid, text);
  }

  lemma RefreshRecorded(a: Db, b: Db, rid: Id, kind: EventKind)
    requires RefreshesInv(a) && a.events.Keys == a.runs.Keys && OnlyRun(a, b, rid)
    requires a.runs[rid].schedule.Some? && b.runs[rid].schedule == a.runs[rid].schedule && b.runs[rid].state.Succeeded?
    requires var link := a.runs[rid].schedule.value;
             && link.scheduleId in a.schedules
             && kind == InterfaceUpdated(a.schedules[link.scheduleId].interfaceId, link.targetRevision + 1)
             && (a.schedules[link.scheduleId].interfaceId, link.targetRevision + 1) in a.revisions
    requires Updates(b.events[rid]) == [kind]
    ensures RefreshesInv(b)
  {
    hide Updates;
    forall r | r in b.runs && r in b.events ensures RefreshInv(b.runs[r], b.events[r], b) {
      if r != rid { assert RefreshInv(a.runs[r], a.events[r], a); }
    }
  }

  lemma NothingPending(a: Db, b: Db, rid: Id)
    requires ProposalsInv(a.proposals, a.runs, a.schedules) && PendingOf(a, rid) == {} && rid in b.runs
    requires b.runs == a.runs[rid := b.runs[rid]] && b.schedules == a.schedules && b.proposals == a.proposals
    ensures ProposalsInv(b.proposals, b.runs, b.schedules)
  {
    forall p | p in b.proposals ensures ProposalInv(b.proposals[p], b.runs, b.schedules) {
      assert ProposalInv(a.proposals[p], a.runs, a.schedules);
      assert p !in PendingOf(a, rid);
    }
  }

  lemma RefreshedKeepsInv(db: Db, rid: Id, kind: EventKind, text: string, cfg: Config, clock: int)
    requires Inv(db, cfg, clock) && rid in db.runs && Live(db.runs[rid].state) && db.runs[rid].schedule.Some?
    requires PendingOf(db, rid) == {}
    requires var link := db.runs[rid].schedule.value;
             && link.scheduleId in db.schedules
             && kind == InterfaceUpdated(db.schedules[link.scheduleId].interfaceId, link.targetRevision + 1)
             && (db.schedules[link.scheduleId].interfaceId, link.targetRevision + 1) in db.revisions
    ensures Sound(db, Refreshed(db, rid, kind, text), cfg, clock)
  {
    hide RowsOf, LogsInv, ExclusiveInv, LiveInv, HistoryInv, ChainInv, ProposalsInv, RequestsInv, RefreshesInv,
        SchedulesInv;
    hide Refreshed, RunStep, LogInv, PendingOf;
    LogOf(db, rid, cfg, clock);
    NothingYet(db, rid);
    RefreshedSteps(db, rid, kind, text);
    var b := Refreshed(db, rid, kind, text);
    OneRunSteps(db, b, rid);
    RefreshRecorded(db, b, rid, kind);
    NothingPending(db, b, rid);
    RunsKeepInv(db, b, cfg, clock);
  }

  lemma NothingYet(db: Db, rid: Id)
    requires RefreshesInv(db) && rid in db.runs && rid in db.events && db.runs[rid].schedule.Some?
             && !db.runs[rid].state.Succeeded?
    ensures Updates(db.events[rid]) == []
  {
    assert RefreshInv(db.runs[rid], db.events[rid], db);
  }

  /** The proposal a refresh publishes is at the schedule's own interface and target. */
  lemma RefreshTarget(db: Db, rid: Id, pid: Id, cfg: Config, clock: int)
    requires Inv(db, cfg, clock) && rid in db.runs && db.runs[rid].schedule.Some?
    requires pid in db.proposals && db.proposals[pid].state.Pending? && db.proposals[pid].source == Some(rid)
    ensures var link := db.runs[rid].schedule.value;
            && link.scheduleId in db.schedules
            && db.proposals[pid].interfaceId == Some(db.schedules[link.scheduleId].interfaceId)
            && db.proposals[pid].expectedRevision == link.targetRevision
  {
    hide RowsOf, LogsInv, ExclusiveInv, LiveInv, HistoryInv, ChainInv, RequestsInv, RefreshesInv, SchedulesInv;
    assert ProposalInv(db.proposals[pid], db.runs, db.schedules);
  }

  lemma MarkedTables(db: Db, rid: Id, pid: Id, newId: Id)
    requires PendingOf(db, rid) == {pid} && db.proposals[pid].interfaceId.Some?
    requires RevisionOf(db, db.proposals[pid].interfaceId.value) == db.proposals[pid].expectedRevision
    ensures var b := Marked(db, pid, newId);
            && b.runs == db.runs && b.schedules == db.schedules && PendingOf(b, rid) == {}
            && (db.proposals[pid].interfaceId.value, db.proposals[pid].expectedRevision + 1) in b.revisions
  {
    forall p | p in Marked(db, pid, newId).proposals ensures p !in PendingOf(Marked(db, pid, newId), rid) {
      if p != pid { assert p !in PendingOf(db, rid); }
    }
  }

  /** What a scheduled success found: one pending proposal, at the target captured at admission,
      and a schedule whose version is still the one captured. */
  lemma RefreshMeans(db: Db, env: Env, rid: Id, result: Option<WorkerResult>, failure: Option<Code>, newId: Id)
    requires rid in db.runs && db.runs[rid].schedule.Some? && Complete(db, env, rid, result, failure, newId).Ok?
    ensures var link := db.runs[rid].schedule.value;
            && result.Some? && |PendingOf(db, rid)| == 1 && Live(db.runs[rid].state)
            && link.scheduleId in db.schedules && db.schedules[link.scheduleId].version == link.version
            && var pid := Only(PendingOf(db, rid));
            && Publish(db, env, pid, link.targetRevision, true, newId).Ok?
            && var done := Publish(db, env, pid, link.targetRevision, true, newId).value;
            && rid in done.0.runs
            && Complete(db, env, rid, result, failure, newId).value == Succeed(done.0, rid, result.value.finalResponse)
  {
    hide AcceptResult, Publish, PendingOf, Only, Emit, Move;
    assert Fence(db, env, db.runs[rid]).Pass?;
    assert AcceptResult(env, db.runs[rid], result).Ok?;
    AcceptedIsSome(env, db.runs[rid], result);
    FencedSchedule(db, env, db.runs[rid]);
    hide Fence;
  }

  lemma FencedSchedule(db: Db, env: Env, run: Run)
    requires Fence(db, env, run).Pass? && run.schedule.Some?
    ensures Live(run.state) && run.schedule.value.scheduleId in db.schedules
    ensures db.schedules[run.schedule.value.scheduleId].version == run.schedule.value.version
  {}

  /** The publication inside a refresh, once its proposal is known to be at the target. */
  lemma RefreshPublished(db: Db, env: Env, rid: Id, pid: Id, iid: Id, target: nat, newId: Id)
    requires rid in db.runs && Publish(db, env, pid, target, true, newId).Ok? && pid in db.proposals
    requires db.proposals[pid].source == Some(rid) && db.proposals[pid].interfaceId == Some(iid)
    ensures InterfaceLive(db.interfaces, iid) && RevisionOf(db, iid) == target && rid in Marked(db, pid, newId).runs
    ensures Publish(db, env, pid, target, true, newId).value.0 ==
            Emit(Marked(db, pid, newId), rid, InterfaceUpdated(iid, target + 1))
  {
    hide Publish, Marked, Emit, PublishSource;
    PublishMeans(db, env, pid, target, true, newId);
    MarkedElsewhere(db, pid, newId);
  }

  /** A scheduled success in one expression: the marked publication with the run's last events. */
  lemma RefreshForm(db: Db, env: Env, rid: Id, pid: Id, result: Option<WorkerResult>, failure: Option<Code>, newId: Id)
    requires Inv(db, env.cfg, env.now) && rid in db.runs && db.runs[rid].schedule.Some?
    requires Complete(db, env, rid, result, failure, newId).Ok? && PendingOf(db, rid) == {pid}
    ensures var link := db.runs[rid].schedule.value;
            && result.Some? && Live(db.runs[rid].state) && link.scheduleId in db.schedules
            && var iid := db.schedules[link.scheduleId].interfaceId;
            && pid in db.proposals && db.proposals[pid].state.Pending? && InterfaceLive(db.interfaces, iid)
            && db.proposals[pid].interfaceId == Some(iid) && db.proposals[pid].expectedRevision == link.targetRevision
            && RevisionOf(db, iid) == link.targetRevision && rid in Marked(db, pid, newId).runs
            && Complete(db, env, rid, result, failure, newId).value ==
                 Refreshed(Marked(db, pid, newId), rid, InterfaceUpdated(iid, link.targetRevision + 1),
                           result.value.finalResponse)
  {
    hide Inv, Publish, Marked, Emit, Succeed, Complete, InterfaceLive, RevisionOf;
    RefreshMeans(db, env, rid, result, failure, newId);
    assert pid in PendingOf(db, rid);
    RefreshTarget(db, rid, pid, env.cfg, env.now);
    var link := db.runs[rid].schedule.value;
    RefreshPublished(db, env, rid, pid, db.schedules[link.scheduleId].interfaceId, link.targetRevision, newId);
  }

  lemma RefreshFinishKeepsInv(db: Db, env: Env, rid: Id, result: Option<WorkerResult>, failure: Option<Code>, newId: Id)
    requires Inv(db, env.cfg, env.now) && Unused(db, newId) && rid in db.runs && db.runs[rid].schedule.Some?
    requires Complete(db, env, rid, result, failure, newId).Ok?
    ensures Sound(db, Complete(db, env, rid, result, failure, newId).value, env.cfg, env.now)
  {
    hide Inv, Advances, Publish, Marked, Refreshed, PendingOf, Complete, RevisionOf;
    RefreshMeans(db, env, rid, result, failure, newId);
    var link := db.runs[rid].schedule.value;
    var pid := Only(PendingOf(db, rid));
    RefreshForm(db, env, rid, pid, result, failure, newId);
    MarkKeepsInv(db, pid, newId, env.cfg, env.now);
    MarkedTables(db, rid, pid, newId);
    var marked := Marked(db, pid, newId);
    var kind := InterfaceUpdated(db.schedules[link.scheduleId].interfaceId, link.targetRevision + 1);
    RefreshedKeepsInv(marked, rid, kind, result.value.finalResponse, env.cfg, env.now);
    Then(db, marked, Refreshed(marked, rid, kind, result.value.finalResponse), env.cfg, env.now);
  }

  lemma FinishKeepsInv(db: Db, env: Env, rid: Id, result: Option<WorkerResult>, failure: Option<Code>, newId: Id)
    requires Inv(db, env.cfg, env.now) && Unused(db, newId) && Finish(db, env, rid, result, failure, newId).Ok?
    ensures Sound(db, Finish(db, env, rid, result, failure, newId).value, env.cfg, env.now)
  {
    hide Inv, Advances, Complete, CloseRequests, Emit, Move, DropProposals;
    var run := db.runs[rid];
    Same(db, env.cfg, env.now);
    DropElsewhere(db, {rid});
    if Terminal(run.state) {
    } else if run.state.Cancelling? {
      var reason := if run.reason.Some? then run.reason else Some(Stopped);
      EndKeepsInv(db, rid, Cancelled, reason, env.cfg, env.now);
      DropThenMove(db, rid, Cancelled, reason);
    } else {
      match Complete(db, env, rid, result, failure, newId) {
        case Err(code) => FailKeepsInv(db, rid, code, env.cfg, env.now);
        case Ok(done) =>
          if run.schedule.Some? {
            RefreshFinishKeepsInv(db, env, rid, result, failure, newId);
          } else {
            OperatorFinishKeepsInv(db, env, rid, result, failure, newId);
          }
          CloseKeepsInv(done, rid, env.cfg, env.now);
          Then(db, done, CloseRequests(done, rid), env.cfg, env.now);
      }
    }
  }

  lemma DropThenMove(db: Db, rid: Id, state: RunState, reason: Option<Reason>)
    requires rid in db.runs
    ensures Move(DropProposals(db, {rid}), rid, state, reason) == DropProposals(Move(db, rid, state, reason), {rid})
  {}
}
