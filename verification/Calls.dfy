/** The calls a run makes while it works, and its end: when each goes through, exactly what it
    writes, and that nothing goes through once the run's time is over. */
module Calls {
  import opened Wrappers
  import opened Engine
  import opened Verdicts
  import opened Writes
  import C = Cron
  import H = History

  // ---------------------------------------------------------------- text and model requests

  lemma DeltaExactly(db: Db, env: Env, rid: Id, text: string)
    ensures var r := Delta(db, env, rid, text);
            && (r.Ok? <==>
                  && PlainText(text, 0, 16000) && rid in db.runs && MayAct(db, env, db.runs[rid])
                  && db.runs[rid].lastSeq < 20000)
            && (r.Ok? ==> r.value == Told(db, rid, db.runs[rid], [AssistantDelta(text)]))
  {
    if rid in db.runs {
      FenceExactly(db, env, db.runs[rid]);
      EmitTells(db, rid, AssistantDelta(text));
    }
    hide Fence, MayAct, Emit, Told;
  }

  lemma DeltaCode(db: Db, env: Env, rid: Id, text: string)
    requires Delta(db, env, rid, text).Err?
    ensures Delta(db, env, rid, text).error ==
            if !PlainText(text, 0, 16000) then InvalidRequest
            else if rid !in db.runs then NotFound
            else if !MayAct(db, env, db.runs[rid]) then WhyNot(db, env, db.runs[rid])
            else BudgetExceeded
  {
    FenceVerdict(db, env, rid);
    hide Fence, MayAct, WhyNot, Emit;
  }

  lemma FenceVerdict(db: Db, env: Env, rid: Id)
    ensures rid in db.runs ==>
              var run := db.runs[rid];
              Fence(db, env, run) == if MayAct(db, env, run) then Pass else Fail(WhyNot(db, env, run))
  {
    if rid in db.runs {
      FenceExactly(db, env, db.runs[rid]);
      if !MayAct(db, env, db.runs[rid]) { FenceCode(db, env, db.runs[rid]); }
    }
    hide Fence, MayAct, WhyNot;
  }

  function UsedOn(db: Db, day: int): nat { if day in db.usage then db.usage[day] else 0 }

  /** A day is 86,400,000 milliseconds. */
  lemma ReserveExactly(db: Db, env: Env, rid: Id)
    ensures var r := ReserveModelRequest(db, env, rid);
            var day := env.now / 86_400_000;
            && (r.Ok? <==>
                  && rid in db.runs && MayAct(db, env, db.runs[rid])
                  && db.runs[rid].modelRequests < db.runs[rid].input.budgets.maxIterations
                  && UsedOn(db, day) < env.cfg.dailyLimit)
            && (r.Ok? ==>
                  r.value == db.(runs := db.runs[rid := db.runs[rid].(modelRequests := db.runs[rid].modelRequests + 1)],
                                 usage := db.usage[day := UsedOn(db, day) + 1]))
  {
    if rid in db.runs { FenceExactly(db, env, db.runs[rid]); }
    hide Fence, MayAct;
  }

  lemma ReserveCode(db: Db, env: Env, rid: Id)
    requires ReserveModelRequest(db, env, rid).Err?
    ensures ReserveModelRequest(db, env, rid).error ==
            if rid !in db.runs then NotFound
            else if !MayAct(db, env, db.runs[rid]) then WhyNot(db, env, db.runs[rid])
            else if db.runs[rid].modelRequests >= db.runs[rid].input.budgets.maxIterations then BudgetExceeded
            else DailyBudgetExceeded
  {
    FenceVerdict(db, env, rid);
    hide Fence, MayAct, WhyNot;
  }

  // ---------------------------------------------------------------- tool calls

  /** The positions of the references whose grant offers the tool. */
  ghost function Offers(db: Db, refs: seq<GrantRef>, tool: GoogleTool): set<nat> {
    set i: nat | i < |refs| && refs[i].id in db.grants && tool in db.grants[refs[i].id].operations
  }

  ghost function Shifted(s: set<nat>): set<nat> { set i | i in s :: i + 1 }

  lemma {:induction false} ShiftedSize(s: set<nat>)
    ensures |Shifted(s)| == |s|
    decreases |s|
  {
    if s == {} {
      assert Shifted(s) == {};
    } else {
      var x :| x in s;
      ShiftedSize(s - {x});
      assert forall i | i in s :: i == x || i in s - {x};
      assert forall i | i in s - {x} :: i in s;
      assert forall y | y in Shifted(s) :: y in Shifted(s - {x}) + {x + 1};
      assert Shifted(s) == Shifted(s - {x}) + {x + 1};
    }
  }

  lemma OffersWithFirst(db: Db, refs: seq<GrantRef>, tool: GoogleTool)
    requires refs != []
    ensures var head: set<nat> :=
              if refs[0].id in db.grants && tool in db.grants[refs[0].id].operations then {0} else {};
            Offers(db, refs, tool) == head + Shifted(Offers(db, refs[1..], tool))
    ensures |Offers(db, refs, tool)| ==
            (if refs[0].id in db.grants && tool in db.grants[refs[0].id].operations then 1 else 0)
            + |Offers(db, refs[1..], tool)|
  {
    var rest := Offers(db, refs[1..], tool);
    var head: set<nat> := if refs[0].id in db.grants && tool in db.grants[refs[0].id].operations then {0} else {};
    forall i: nat | 0 < i < |refs| ensures i - 1 in rest <==> i in Offers(db, refs, tool) {
      assert refs[i] == refs[1..][i - 1];
    }
    assert Offers(db, refs, tool) == head + Shifted(rest);
    assert head !! Shifted(rest);
    ShiftedSize(rest);
  }

  lemma {:induction false} OfferingSize(db: Db, refs: seq<GrantRef>, tool: GoogleTool)
    ensures |GrantsOffering(db, refs, tool)| == |Offers(db, refs, tool)|
    decreases |refs|
  {
    if refs == [] {
      assert Offers(db, refs, tool) == {};
    } else {
      OfferingSize(db, refs[1..], tool);
      OffersWithFirst(db, refs, tool);
      hide Offers, Shifted;
    }
  }

  lemma {:induction false} OfferingIs(db: Db, refs: seq<GrantRef>, tool: GoogleTool)
    ensures |GrantsOffering(db, refs, tool)| == |Offers(db, refs, tool)|
    ensures forall c | c in GrantsOffering(db, refs, tool) :: exists i :: i in Offers(db, refs, tool) && refs[i] == c
    decreases |refs|
  {
    OfferingSize(db, refs, tool);
    if refs != [] {
      OfferingIs(db, refs[1..], tool);
      forall c | c in GrantsOffering(db, refs, tool) ensures exists i :: i in Offers(db, refs, tool) && refs[i] == c {
        if c in GrantsOffering(db, refs[1..], tool) {
          var i :| i in Offers(db, refs[1..], tool) && refs[1..][i] == c;
          assert refs[i + 1] == c && i + 1 in Offers(db, refs, tool);
        } else {
          assert 0 in Offers(db, refs, tool) && refs[0] == c;
        }
      }
    }
  }

  /** A request for the device under the one grant that offers the tool, until the run's deadline or
      the grant's end, whichever comes first; the run waits. */
  function Requested(db: Db, rid: Id, tool: GoogleTool, ref: GrantRef, newId: Id): Db
    requires rid in db.runs && ref.id in db.grants
  {
    var run, grant := db.runs[rid], db.grants[ref.id];
    var until := if run.deadline < grant.expiresAt then run.deadline else grant.expiresAt;
    var row := ToolRequest(rid, grant.deviceId, grant.connectionId, GrantRef(ref.id, grant.generation), tool, until,
                           Open, None, 0, None, None);
    Told(db.(tools := db.tools[newId := row]), rid,
         run.(state := WaitingForDevice, reason := Some(NativeToolRequired)),
         [ToolRequested(newId), StateChanged(WaitingForDevice, Some(NativeToolRequired))])
  }

  lemma GoogleExactly(db: Db, env: Env, rid: Id, tool: GoogleTool, windowValid: bool, newId: Id)
    requires rid in db.runs
    ensures var r := RequestGoogle(db, env, rid, tool, windowValid, newId);
            var v := db.runs[rid].input;
            && (r.Ok? <==>
                  windowValid && GrantsStand(db, env, v.workspaceId, v.modelId, v.grantRefs)
                  && |Offers(db, v.grantRefs, tool)| == 1)
            && (r.Ok? ==>
                  forall i | i in Offers(db, v.grantRefs, tool) ::
                    r.value == Requested(db, rid, tool, v.grantRefs[i], newId))
  {
    var v := db.runs[rid].input;
    var offers, choices := Offers(db, v.grantRefs, tool), GrantsOffering(db, v.grantRefs, tool);
    GrantsExactly(db, env, v.workspaceId, v.modelId, v.grantRefs);
    OfferingIs(db, v.grantRefs, tool);
    hide CheckGrants, GrantsStand, GrantsOffering;
    if |choices| == 1 {
      assert choices[0] in choices;
      var k :| k in offers && v.grantRefs[k] == choices[0];
      forall i | i in offers ensures i == k { OneOffer(offers, i, k); }
      if RequestGoogle(db, env, rid, tool, windowValid, newId).Ok? {
        GoogleWrites(db, env, rid, tool, windowValid, newId);
      }
    }
  }

  lemma OneOffer(s: set<nat>, i: nat, k: nat)
    requires |s| == 1 && i in s && k in s
    ensures i == k
  {
    assert |s - {i}| == 0;
  }

  lemma GoogleWrites(db: Db, env: Env, rid: Id, tool: GoogleTool, windowValid: bool, newId: Id)
    requires rid in db.runs && RequestGoogle(db, env, rid, tool, windowValid, newId).Ok?
    ensures var choices := GrantsOffering(db, db.runs[rid].input.grantRefs, tool);
            && |choices| == 1 && choices[0].id in db.grants
            && RequestGoogle(db, env, rid, tool, windowValid, newId).value ==
               Requested(db, rid, tool, choices[0], newId)
  {
    hide CheckGrants, GrantsOffering, Emit, Move, Told;
    var run := db.runs[rid];
    var choices := GrantsOffering(db, run.input.grantRefs, tool);
    var grant := db.grants[choices[0].id];
    var row := ToolRequest(rid, grant.deviceId, grant.connectionId, GrantRef(choices[0].id, grant.generation), tool,
                           Least(run.deadline, grant.expiresAt), Open, None, 0, None, None);
    EmitMoveTells(db.(tools := db.tools[newId := row]), rid, ToolRequested(newId), WaitingForDevice,
                  Some(NativeToolRequired));
  }

  /** The run with one more call counted. */
  function Counted(db: Db, rid: Id): Db
    requires rid in db.runs
  {
    db.(runs := db.runs[rid := db.runs[rid].(toolCalls := db.runs[rid].toolCalls + 1)])
  }

  function OwnProposal(run: Run, target: Option<Id>, expected: nat, title: string, spec: string): ProposalInput {
    ProposalInput(run.input.workspaceId, target, expected, title, spec)
  }

  function OwnSchedule(run: Run, v: ScheduleInput): ScheduleInput {
    v.(workspaceId := run.input.workspaceId, modelId := run.input.modelId, grantRefs := run.input.grantRefs)
  }

  /** What each tool asks for, on the tables with the call counted. */
  ghost predicate ToolAllows(db: Db, env: Env, rid: Id, args: ToolArgs)
    requires rid in db.runs
  {
    var run := db.runs[rid];
    match args
    case ListInterfaces => true
    case ReadInterface(iid) => InterfaceStands(db, iid)
    case ProposeInterface(target, expected, title, spec) =>
      MayPropose(db, env, OwnProposal(run, target, expected, title, spec), Some(rid))
    case CreateScheduleTool(v) => MaySchedule(db, env, OwnSchedule(run, v), Some(rid))
    case ReadGoogle(tool, windowValid) =>
      windowValid && GrantsStand(db, env, run.input.workspaceId, run.input.modelId, run.input.grantRefs)
      && |Offers(db, run.input.grantRefs, tool)| == 1
    case UnknownTool => false
  }

  /** What each tool leaves, from the tables with the call counted. */
  ghost predicate ToolLeaves(db: Db, rid: Id, args: ToolArgs, newId: Id, b: Db)
    requires rid in db.runs
  {
    var run := db.runs[rid];
    match args
    case ProposeInterface(target, expected, title, spec) =>
      b == Proposed(db, OwnProposal(run, target, expected, title, spec), Some(rid), newId)
    case CreateScheduleTool(v) => C.Parse(v.cron).Some? && b == ScheduledAs(db, OwnSchedule(run, v), Some(rid), newId)
    case ReadGoogle(tool, _) =>
      forall i | i in Offers(db, run.input.grantRefs, tool) ::
          b == Requested(db, rid, tool, run.input.grantRefs[i], newId)
    case _ => b == db
  }

  lemma CallExactly(db: Db, env: Env, rid: Id, args: ToolArgs, newId: Id)
    ensures var r := CallTool(db, env, rid, args, newId);
            && (r.Ok? <==>
                  && rid in db.runs && MayAct(db, env, db.runs[rid])
                  && db.runs[rid].toolCalls < db.runs[rid].input.budgets.maxToolCalls
                  && ToolAllows(Counted(db, rid), env, rid, args))
            && (r.Ok? ==> ToolLeaves(Counted(db, rid), rid, args, newId, r.value))
  {
    hide Fence, MayAct, Propose, CreateSchedule, RequestGoogle, MayPropose, MaySchedule, Proposed, ScheduledAs;
    hide GrantsStand, Offers, Requested;
    if rid in db.runs {
      var run := db.runs[rid];
      FenceExactly(db, env, run);
      var counted := Counted(db, rid);
      assert counted == PutRun(db, rid, run.(toolCalls := run.toolCalls + 1));
      match args {
        case ProposeInterface(target, expected, title, spec) =>
          ProposeExactly(counted, env, OwnProposal(run, target, expected, title, spec), Some(rid), newId);
        case CreateScheduleTool(v) =>
          CreateScheduleExactly(counted, env, OwnSchedule(run, v), Some(rid), newId);
          ScheduleParses(counted, env, OwnSchedule(run, v), Some(rid));
        case ReadGoogle(tool, windowValid) => GoogleExactly(counted, env, rid, tool, windowValid, newId);
        case _ =>
      }
    }
  }

  lemma ScheduleParses(db: Db, env: Env, v: ScheduleInput, source: Option<Id>)
    ensures MaySchedule(db, env, v, source) ==> C.Parse(v.cron).Some?
  {
    hide C.Parse, MayAct, GrantsStand;
  }

  /** What a tool answers when it does not go through, on the tables with the call counted. */
  ghost function ToolRefusal(db: Db, env: Env, rid: Id, args: ToolArgs): Code
    requires rid in db.runs && !ToolAllows(db, env, rid, args)
  {
    var run := db.runs[rid];
    match args
    case ReadInterface(iid) => if iid in db.interfaces then Tombstoned else NotFound
    case ProposeInterface(target, expected, title, spec) =>
      WhyUnproposed(db, env, OwnProposal(run, target, expected, title, spec), Some(rid))
    case CreateScheduleTool(v) => WhyUnscheduled(db, env, OwnSchedule(run, v), Some(rid))
    case ReadGoogle(_, windowValid) => if windowValid then GrantDenied else InvalidRequest
    case _ => ToolDenied
  }

  lemma CallCode(db: Db, env: Env, rid: Id, args: ToolArgs, newId: Id)
    requires CallTool(db, env, rid, args, newId).Err?
    ensures rid in db.runs && MayAct(db, env, db.runs[rid]) && args != UnknownTool
            && db.runs[rid].toolCalls < db.runs[rid].input.budgets.maxToolCalls
            ==> !ToolAllows(Counted(db, rid), env, rid, args)
    ensures CallTool(db, env, rid, args, newId).error ==
            if rid !in db.runs then NotFound
            else if !MayAct(db, env, db.runs[rid]) then WhyNot(db, env, db.runs[rid])
            else if args == UnknownTool then ToolDenied
            else if db.runs[rid].toolCalls >= db.runs[rid].input.budgets.maxToolCalls then BudgetExceeded
            else ToolRefusal(Counted(db, rid), env, rid, args)
  {
    FenceVerdict(db, env, rid);
    CallExactly(db, env, rid, args, newId);
    hide Fence, MayAct, WhyNot, Propose, CreateSchedule, RequestGoogle, MayPropose, MaySchedule, WhyUnproposed,
        WhyUnscheduled;
    hide ToolLeaves;
    if rid in db.runs && MayAct(db, env, db.runs[rid]) {
      var run, counted := db.runs[rid], Counted(db, rid);
      assert counted == PutRun(db, rid, run.(toolCalls := run.toolCalls + 1));
      match args {
        case ProposeInterface(target, expected, title, spec) =>
          if !ToolAllows(counted, env, rid, args) {
            ProposeCode(counted, env, OwnProposal(run, target, expected, title, spec), Some(rid), newId);
          }
        case CreateScheduleTool(v) =>
          if !ToolAllows(counted, env, rid, args) {
            CreateScheduleCode(counted, env, OwnSchedule(run, v), Some(rid), newId);
          }
        case ReadGoogle(tool, windowValid) =>
          GrantsActed(db, env, rid);
          GoogleExactly(counted, env, rid, tool, windowValid, newId);
          if !ToolAllows(counted, env, rid, args) { GoogleCode(counted, env, rid, tool, windowValid, newId); }
        case _ =>
      }
    }
  }

  lemma GrantsCounted(db: Db, env: Env, rid: Id, wid: Id, model: Id, refs: seq<GrantRef>)
    requires rid in db.runs
    ensures GrantsStand(Counted(db, rid), env, wid, model, refs) <==> GrantsStand(db, env, wid, model, refs)
  {
    forall ref ensures GrantStands(Counted(db, rid), env, wid, model, ref) <==> GrantStands(db, env, wid, model, ref) {}
    hide GrantStands;
  }

  /** A run that may act has all its grants, also once its call is counted. */
  lemma GrantsActed(db: Db, env: Env, rid: Id)
    requires rid in db.runs && MayAct(db, env, db.runs[rid])
    ensures var v := db.runs[rid].input; GrantsStand(Counted(db, rid), env, v.workspaceId, v.modelId, v.grantRefs)
  {
    var v := db.runs[rid].input;
    GrantsCounted(db, env, rid, v.workspaceId, v.modelId, v.grantRefs);
    hide GrantsStand, Counted;
  }

  lemma GoogleCode(db: Db, env: Env, rid: Id, tool: GoogleTool, windowValid: bool, newId: Id)
    requires rid in db.runs && RequestGoogle(db, env, rid, tool, windowValid, newId).Err?
    requires var v := db.runs[rid].input; GrantsStand(db, env, v.workspaceId, v.modelId, v.grantRefs)
    ensures RequestGoogle(db, env, rid, tool, windowValid, newId).error == if windowValid then GrantDenied
            else InvalidRequest
  {
    var v := db.runs[rid].input;
    GrantsExactly(db, env, v.workspaceId, v.modelId, v.grantRefs);
    hide CheckGrants, GrantsStand, GrantsOffering, Emit, Move;
  }

  // ---------------------------------------------------------------- the device's side

  /** What both the lease and the delivery of a request ask for. */
  ghost predicate RequestStands(db: Db, env: Env, rid: Id, tid: Id) {
    && rid in db.runs && tid in db.tools && db.tools[tid].runId == rid && db.tools[tid].deviceId == env.cfg.device
    && MayAct(db, env, db.runs[rid]) && env.now < db.tools[tid].expiresAt
  }

  lemma CheckRequestExactly(db: Db, env: Env, rid: Id, tid: Id)
    ensures var r := CheckRequest(db, env, rid, tid);
            (r.Ok? <==> RequestStands(db, env, rid, tid)) && (r.Ok? ==> r.value == db.tools[tid])
  {
    if rid in db.runs { FenceExactly(db, env, db.runs[rid]); }
    hide Fence, MayAct;
  }

  /** A lease runs for half a minute, or until the request does. */
  lemma ClaimExactly(db: Db, env: Env, rid: Id, tid: Id, token: Id)
    ensures var r := ClaimRequest(db, env, rid, tid, token);
            && (r.Ok? <==>
                  && RequestStands(db, env, rid, tid)
                  && (db.tools[tid].state == Open
                      || (db.tools[tid].state == Claimed && db.tools[tid].claimUntil <= env.now)))
            && (r.Ok? ==>
                  var request := db.tools[tid];
                  var until := if request.expiresAt < env.now + 30_000 then request.expiresAt else env.now + 30_000;
                  r.value == db.(tools := db.tools[tid := request.(state := Claimed, claim := Some(token),
                                                                   claimUntil := until)]))
  {
    CheckRequestExactly(db, env, rid, tid);
    hide CheckRequest, MayAct;
  }

  /** A result is taken under its own lease, once; the same delivery again changes nothing. */
  lemma DeliverExactly(db: Db, env: Env, rid: Id, tid: Id, body: ResultBody)
    ensures var r := DeliverResult(db, env, rid, tid, body);
            && (r.Ok? <==>
                  && RequestStands(db, env, rid, tid)
                  && var request := db.tools[tid];
                  && request.claim == Some(body.claimToken)
                  && (if request.state == Completed then request.digest == Some(body)
                      else request.state == Claimed && env.now < request.claimUntil && body.wellFormed))
            && (r.Ok? ==>
                  var taken := db.tools[tid].(state := Completed, result := Some(body), digest := Some(body));
                  r.value == if db.tools[tid].state == Completed then db
                             else Told(db.(tools := db.tools[tid := taken]),
                                       rid, db.runs[rid].(state := Running, reason := None),
                                       [ToolResult(tid, body.succeeded), StateChanged(Running, None)]))
  {
    CheckRequestExactly(db, env, rid, tid);
    hide CheckRequest, MayAct, Emit, Move, Told;
    if RequestStands(db, env, rid, tid) {
      var stored := db.(tools := db.tools[tid := db.tools[tid].(state := Completed, result := Some(body),
                                                                digest := Some(body))]);
      EmitMoveTells(stored, rid, ToolResult(tid, body.succeeded), Running, None);
    }
  }

  /** What stands against the lease or the delivery of a request, whatever its state. */
  ghost function WhyNoRequest(db: Db, env: Env, rid: Id, tid: Id): Code
    requires !RequestStands(db, env, rid, tid)
  {
    if rid !in db.runs || tid !in db.tools then NotFound
    else if db.tools[tid].runId != rid || db.tools[tid].deviceId != env.cfg.device then UnauthorizedScope
    else if !MayAct(db, env, db.runs[rid]) then WhyNot(db, env, db.runs[rid])
    else Expired
  }

  lemma RequestCode(db: Db, env: Env, rid: Id, tid: Id)
    requires !RequestStands(db, env, rid, tid)
    ensures CheckRequest(db, env, rid, tid) == Err(WhyNoRequest(db, env, rid, tid))
  {
    FenceVerdict(db, env, rid);
    hide Fence, MayAct, WhyNot;
  }

  lemma ClaimCode(db: Db, env: Env, rid: Id, tid: Id, token: Id)
    requires ClaimRequest(db, env, rid, tid, token).Err?
    ensures ClaimRequest(db, env, rid, tid, token).error ==
            if !RequestStands(db, env, rid, tid) then WhyNoRequest(db, env, rid, tid) else StaleClaim
  {
    CheckRequestExactly(db, env, rid, tid);
    if !RequestStands(db, env, rid, tid) { RequestCode(db, env, rid, tid); }
    hide CheckRequest, RequestStands, WhyNoRequest;
  }

  /** Only a body that is not well formed, under a lease that stands, is refused for what it holds. */
  lemma DeliverCode(db: Db, env: Env, rid: Id, tid: Id, body: ResultBody)
    requires DeliverResult(db, env, rid, tid, body).Err?
    ensures DeliverResult(db, env, rid, tid, body).error ==
            if !RequestStands(db, env, rid, tid) then WhyNoRequest(db, env, rid, tid)
            else if db.tools[tid].claim == Some(body.claimToken) && db.tools[tid].state == Claimed
                    && env.now < db.tools[tid].claimUntil
            then InvalidRequest
            else StaleClaim
  {
    CheckRequestExactly(db, env, rid, tid);
    if !RequestStands(db, env, rid, tid) { RequestCode(db, env, rid, tid); }
    hide CheckRequest, MayAct, WhyNoRequest, Emit, Move;
  }

  // ---------------------------------------------------------------- after the deadline

  /** Once a run's time is over none of its calls goes through, whatever they ask for. */
  lemma LateCallsAreRefused(db: Db, env: Env, rid: Id, text: string, args: ToolArgs, tid: Id, token: Id,
                            body: ResultBody, newId: Id)
    requires rid in db.runs && db.runs[rid].deadline <= env.now
    ensures Delta(db, env, rid, text).Err? && ReserveModelRequest(db, env, rid).Err?
            && CallTool(db, env, rid, args, newId).Err?
    ensures ClaimRequest(db, env, rid, tid, token).Err? && DeliverResult(db, env, rid, tid, body).Err?
  {
    assert !MayAct(db, env, db.runs[rid]);
    DeltaExactly(db, env, rid, text);
    ReserveExactly(db, env, rid);
    CallExactly(db, env, rid, args, newId);
    ClaimExactly(db, env, rid, tid, token);
    DeliverExactly(db, env, rid, tid, body);
    hide MayAct, Delta, ReserveModelRequest, CallTool, ClaimRequest, DeliverResult, ToolAllows, ToolLeaves, Told;
  }
}
