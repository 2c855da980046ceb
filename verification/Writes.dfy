/** Proposals, publications, revisions and schedules: when each is accepted, and exactly what it writes. */
module Writes {
  import opened Wrappers
  import opened Engine
  import opened Verdicts
  import H = History
  import P = Publication
  import C = Cron

  /** Text without control characters but line breaks and tabs. */
  ghost predicate PlainText(s: string, least: nat, most: nat) {
    least <= |s| <= most && forall i | 0 <= i < |s| :: ' ' <= s[i] || s[i] == '\n' || s[i] == '\r' || s[i] == '\t'
  }

  /** A workspace record is made where there is none, and nothing else is touched. */
  function Recorded(db: Db, wid: Id): Db {
    if wid in db.workspaces then db else db.(workspaces := db.workspaces[wid := Workspace([], false, false)])
  }

  lemma RecordedIs(db: Db, wid: Id)
    ensures TouchWorkspace(db, wid, [], false) ==
            if wid in db.workspaces && db.workspaces[wid].deleted then Err(Tombstoned) else Ok(Recorded(db, wid))
  {
    if wid in db.workspaces { assert db.workspaces[wid := db.workspaces[wid]] == db.workspaces; }
  }

  // ---------------------------------------------------------------- proposing

  /** A proposal at the schedule's own interface and the revision captured at admission. */
  ghost predicate AtTarget(db: Db, link: ScheduleLink, iid: Option<Id>, expected: nat) {
    && link.scheduleId in db.schedules && !db.schedules[link.scheduleId].deleted
    && iid == Some(db.schedules[link.scheduleId].interfaceId) && expected == link.targetRevision
  }

  ghost predicate MayPropose(db: Db, env: Env, v: ProposalInput, source: Option<Id>) {
    && PlainText(v.title, 1, 160)
    && (v.interfaceId.Some? ==> v.expectedRevision >= 1)
    && (v.interfaceId.None? ==> v.expectedRevision == 0)
    && (v.workspaceId in db.workspaces ==> !db.workspaces[v.workspaceId].deleted)
    && (v.interfaceId.Some? ==>
          InterfaceStands(db, v.interfaceId.value) && db.interfaces[v.interfaceId.value].revision == v.expectedRevision)
    && (source.Some? ==>
          && source.value in db.runs
          && var run := db.runs[source.value];
          && MayAct(Recorded(db, v.workspaceId), env, run) && v.workspaceId == run.input.workspaceId
          && (run.schedule.Some? ==> AtTarget(db, run.schedule.value, v.interfaceId, v.expectedRevision)))
  }

  /** A pending row under a new id, and an event of the run that proposed it. */
  function Proposed(db: Db, v: ProposalInput, source: Option<Id>, pid: Id): Db {
    var kept := Recorded(db, v.workspaceId);
    var row := Proposal(v.workspaceId, v.interfaceId, v.expectedRevision, v.title, v.spec, Pending, source);
    var b := kept.(proposals := kept.proposals[pid := row]);
    if source.Some? && source.value in db.runs
    then Told(b, source.value, db.runs[source.value], [InterfaceProposed(pid)]) else b
  }

  lemma ScopeExactly(db: Db, env: Env, v: ProposalInput, source: Option<Id>)
    ensures ProposalScope(db, env, v, source).Pass? <==>
            (source.Some? ==>
               && source.value in db.runs
               && MayAct(db, env, db.runs[source.value]) && v.workspaceId == db.runs[source.value].input.workspaceId)
  {
    if source.Some? && source.value in db.runs { FenceExactly(db, env, db.runs[source.value]); }
    hide Fence, MayAct;
  }

  lemma TargetExactly(db: Db, v: ProposalInput, source: Option<Id>)
    ensures ProposalTarget(db, v, source).Pass? <==>
            && (v.interfaceId.Some? ==>
                  && InterfaceStands(db, v.interfaceId.value)
                  && db.interfaces[v.interfaceId.value].revision == v.expectedRevision)
            && (source.Some? && source.value in db.runs && db.runs[source.value].schedule.Some? ==>
                  AtTarget(db, db.runs[source.value].schedule.value, v.interfaceId, v.expectedRevision))
  {}

  lemma ProposeExactly(db: Db, env: Env, v: ProposalInput, source: Option<Id>, pid: Id)
    ensures Propose(db, env, v, source, pid).Ok? <==> MayPropose(db, env, v, source)
    ensures Propose(db, env, v, source, pid).Ok? ==>
            Propose(db, env, v, source, pid).value == Proposed(db, v, source, pid)
  {
    hide TouchWorkspace, ProposalScope, ProposalTarget, MayAct, Emit, Told, AtTarget, Recorded;
    RecordedIs(db, v.workspaceId);
    var kept := Recorded(db, v.workspaceId);
    RecordedElsewhere(db, v.workspaceId);
    ScopeExactly(kept, env, v, source);
    TargetExactly(kept, v, source);
    AtTargetElsewhere(db, v.workspaceId);
    if source.Some? && source.value in db.runs {
      EmitTells(AddProposal(kept, v, source, pid), source.value, InterfaceProposed(pid));
    }
  }

  lemma RecordedElsewhere(db: Db, wid: Id)
    ensures Recorded(db, wid) == db.(workspaces := Recorded(db, wid).workspaces)
  {}

  lemma AtTargetElsewhere(db: Db, wid: Id)
    ensures forall link, iid, expected ::
            AtTarget(Recorded(db, wid), link, iid, expected) <==> AtTarget(db, link, iid, expected)
  {}

  /** The first thing that stands against a proposal, in the order in which the source looks. */
  ghost function WhyUnproposed(db: Db, env: Env, v: ProposalInput, source: Option<Id>): Code
    requires !MayPropose(db, env, v, source)
  {
    if !PlainText(v.title, 1, 160) || (v.interfaceId.Some? && v.expectedRevision == 0)
        || (v.interfaceId.None? && v.expectedRevision != 0)
    then InvalidRequest
    else if v.workspaceId in db.workspaces && db.workspaces[v.workspaceId].deleted then Tombstoned
    else if source.Some? && source.value !in db.runs then NotFound
    else if source.Some? && !MayAct(Recorded(db, v.workspaceId), env, db.runs[source.value]) then
      WhyNot(Recorded(db, v.workspaceId), env, db.runs[source.value])
    else if source.Some? && v.workspaceId != db.runs[source.value].input.workspaceId then UnauthorizedScope
    else if v.interfaceId.Some? && v.interfaceId.value !in db.interfaces then NotFound
    else if v.interfaceId.Some? && db.interfaces[v.interfaceId.value].deleted then Tombstoned
    else if v.interfaceId.Some? && db.interfaces[v.interfaceId.value].revision != v.expectedRevision
        then RevisionConflict
    else
      var link := db.runs[source.value].schedule.value;
      if link.scheduleId !in db.schedules then NotFound
      else if db.schedules[link.scheduleId].deleted then Tombstoned
      else UnauthorizedScope
  }

  lemma ProposeCode(db: Db, env: Env, v: ProposalInput, source: Option<Id>, pid: Id)
    requires !MayPropose(db, env, v, source)
    ensures Propose(db, env, v, source, pid) == Err(WhyUnproposed(db, env, v, source))
  {
    hide TouchWorkspace, MayAct, Fence, WhyNot, Emit;
    RecordedIs(db, v.workspaceId);
    RecordedElsewhere(db, v.workspaceId);
    if source.Some? && source.value in db.runs {
      var kept := Recorded(db, v.workspaceId);
      FenceExactly(kept, env, db.runs[source.value]);
      if !MayAct(kept, env, db.runs[source.value]) { FenceCode(kept, env, db.runs[source.value]); }
    }
    hide Recorded;
  }

  // ---------------------------------------------------------------- publishing

  ghost predicate MayPublish(db: Db, env: Env, pid: Id, expected: nat, scheduled: bool) {
    && pid in db.proposals
    && var p := db.proposals[pid];
    && p.state == Pending && p.expectedRevision == expected && WorkspaceStands(db, p.workspaceId)
    && (p.interfaceId.Some? ==>
          InterfaceStands(db, p.interfaceId.value) && db.interfaces[p.interfaceId.value].revision == expected)
    && (p.interfaceId.None? ==> expected == 0)
    && (p.source.Some? ==>
          && p.source.value in db.runs
          && var run := db.runs[p.source.value];
          if scheduled then MayAct(db, env, run)
          else
            && run.state == Succeeded && run.schedule.None?
            && GrantsStand(db, env, run.input.workspaceId, run.input.modelId, run.input.grantRefs))
  }

  /** The interface's next revision as its head, and the proposal marked. */
  function WrittenAs(db: Db, pid: Id, iid: Id): Db
    requires pid in db.proposals
  {
    var p := db.proposals[pid];
    var n := p.expectedRevision + 1;
    var account := p.source.Some? && p.source.value in db.runs && db.runs[p.source.value].input.grantRefs != [];
    db.(
      revisions := db.revisions[(iid, n) := Revision(p.title, p.spec, if n == 1 then None else Some(n - 1))],
      interfaces := db.interfaces[iid := Interface(n, p.title, p.spec, Provenance(account, p.source), false)],
      proposals := db.proposals[pid := p.(state := Published, interfaceId := Some(iid))])
  }

  /** The publication, and an event of the run that proposed it. */
  function PublishedAs(db: Db, pid: Id, iid: Id): Db
    requires pid in db.proposals
  {
    var p, b := db.proposals[pid], WrittenAs(db, pid, iid);
    if p.source.Some? && p.source.value in db.runs
    then Told(b, p.source.value, db.runs[p.source.value], [InterfaceUpdated(iid, p.expectedRevision + 1)]) else b
  }

  lemma SourceExactly(db: Db, env: Env, p: Proposal, scheduled: bool)
    ensures PublishSource(db, env, p, scheduled).Pass? <==>
            (p.source.Some? ==>
               && p.source.value in db.runs
               && var run := db.runs[p.source.value];
               if scheduled then MayAct(db, env, run)
               else
                 && run.state == Succeeded && run.schedule.None?
                 && GrantsStand(db, env, run.input.workspaceId, run.input.modelId, run.input.grantRefs))
  {
    if p.source.Some? && p.source.value in db.runs {
      var run := db.runs[p.source.value];
      FenceExactly(db, env, run);
      GrantsExactly(db, env, run.input.workspaceId, run.input.modelId, run.input.grantRefs);
    }
    hide Fence, MayAct, CheckGrants, GrantsStand;
  }

  lemma PublishExactly(db: Db, env: Env, pid: Id, expected: nat, scheduled: bool, newId: Id)
    requires newId !in db.interfaces
    ensures var r := Publish(db, env, pid, expected, scheduled, newId);
            && (r.Ok? <==> MayPublish(db, env, pid, expected, scheduled))
            && (r.Ok? ==>
                  && r.value.1 == (if db.proposals[pid].interfaceId.Some? then db.proposals[pid].interfaceId.value
                                   else newId)
                  && r.value.0 == PublishedAs(db, pid, r.value.1))
  {
    hide PublishSource, MayAct, GrantsStand, Emit, Told, Publish, P.Marked;
    PublishIff(db, env, pid, expected, scheduled, newId);
    if Publish(db, env, pid, expected, scheduled, newId).Ok? {
      P.PublishMeans(db, env, pid, expected, scheduled, newId);
      MarkedAs(db, pid, newId);
      P.MarkedElsewhere(db, pid, newId);
      var p := db.proposals[pid];
      if p.source.Some? && p.source.value in db.runs {
        var iid := if p.interfaceId.Some? then p.interfaceId.value else newId;
        EmitTells(P.Marked(db, pid, newId), p.source.value, InterfaceUpdated(iid, expected + 1));
      }
    }
  }

  lemma PublishIff(db: Db, env: Env, pid: Id, expected: nat, scheduled: bool, newId: Id)
    ensures Publish(db, env, pid, expected, scheduled, newId).Ok? <==> MayPublish(db, env, pid, expected, scheduled)
  {
    hide PublishSource, MayAct, GrantsStand, Emit, WriteInterface;
    if pid in db.proposals { SourceExactly(db, env, db.proposals[pid], scheduled); }
  }

  lemma MarkedAs(db: Db, pid: Id, newId: Id)
    requires pid in db.proposals && newId !in db.interfaces
    requires var p := db.proposals[pid];
             if p.interfaceId.Some? then RevisionOf(db, p.interfaceId.value) == p.expectedRevision
                 else p.expectedRevision == 0
    ensures P.Marked(db, pid, newId) ==
            WrittenAs(db, pid, if db.proposals[pid].interfaceId.Some? then db.proposals[pid].interfaceId.value
                      else newId)
  {}

  /** The first thing that stands against a publication, in the order in which the source looks. */
  ghost function WhyUnpublished(db: Db, env: Env, pid: Id, expected: nat, scheduled: bool): Code
    requires !MayPublish(db, env, pid, expected, scheduled)
  {
    if pid !in db.proposals then NotFound
    else
      var p := db.proposals[pid];
      if p.state != Pending then ProposalInactive
      else if p.expectedRevision != expected then RevisionConflict
      else if p.workspaceId !in db.workspaces then NotFound
      else if db.workspaces[p.workspaceId].deleted then Tombstoned
      else if p.source.Some? && p.source.value !in db.runs then NotFound
      else if p.source.Some? && scheduled && !MayAct(db, env, db.runs[p.source.value]) then
        WhyNot(db, env, db.runs[p.source.value])
      else if p.source.Some? && !scheduled && !Standing(db, env, db.runs[p.source.value]) then
        var run := db.runs[p.source.value];
        if run.state != Succeeded then RunInactive
        else if !GrantsStand(db, env, run.input.workspaceId, run.input.modelId, run.input.grantRefs) then
          var refs := run.input.grantRefs;
          var i := FirstFallen(db, env, run.input.workspaceId, run.input.modelId, refs);
          if refs[i].id in db.grants then GrantDenied else NotFound
        else UnauthorizedScope
      else if p.interfaceId.Some? && p.interfaceId.value !in db.interfaces then NotFound
      else if p.interfaceId.Some? && db.interfaces[p.interfaceId.value].deleted then Tombstoned
      else RevisionConflict
  }

  /** An operator's run that succeeded and whose grants still stand. */
  ghost predicate Standing(db: Db, env: Env, run: Run) {
    && run.state == Succeeded && run.schedule.None?
    && GrantsStand(db, env, run.input.workspaceId, run.input.modelId, run.input.grantRefs)
  }

  lemma PublishCode(db: Db, env: Env, pid: Id, expected: nat, scheduled: bool, newId: Id)
    requires !MayPublish(db, env, pid, expected, scheduled)
    ensures Publish(db, env, pid, expected, scheduled, newId) == Err(WhyUnpublished(db, env, pid, expected, scheduled))
  {
    hide MayAct, GrantsStand, Emit, WriteInterface, Fence, CheckGrants, WhyNot, FirstFallen;
    if pid in db.proposals && db.proposals[pid].source.Some? && db.proposals[pid].source.value in db.runs {
      var run := db.runs[db.proposals[pid].source.value];
      FenceExactly(db, env, run);
      if !MayAct(db, env, run) { FenceCode(db, env, run); }
      GrantsExactly(db, env, run.input.workspaceId, run.input.modelId, run.input.grantRefs);
      if !GrantsStand(db, env, run.input.workspaceId, run.input.modelId, run.input.grantRefs) {
        GrantsCode(db, env, run.input.workspaceId, run.input.modelId, run.input.grantRefs);
      }
    }
  }

  // ---------------------------------------------------------------- revisions of an interface

  /** A revision on top of the one that stands. */
  function Revised(db: Db, iid: Id, title: string, spec: string): Db
    requires iid in db.interfaces
  {
    var head := db.interfaces[iid];
    var n := head.revision + 1;
    db.(revisions := db.revisions[(iid, n) := Revision(title, spec, if n == 1 then None else Some(head.revision))],
        interfaces := db.interfaces[iid := Interface(n, title, spec, head.provenance, false)])
  }

  lemma RenameExactly(db: Db, iid: Id, expected: nat, title: string)
    ensures var r := Rename(db, iid, expected, title);
            && (r.Ok? <==>
                  && InterfaceStands(db, iid) && expected >= 1 && db.interfaces[iid].revision == expected
                  && PlainText(title, 1, 160))
            && (r.Ok? ==> r.value == Revised(db, iid, title, db.interfaces[iid].spec))
  {}

  lemma RollbackExactly(db: Db, iid: Id, expected: nat, target: nat)
    ensures var r := Rollback(db, iid, expected, target);
            && (r.Ok? <==>
                  && InterfaceStands(db, iid) && expected >= 1 && db.interfaces[iid].revision == expected
                  && target >= 1 && (iid, target) in db.revisions)
            && (r.Ok? ==>
                  r.value == Revised(db, iid, db.revisions[(iid, target)].title, db.revisions[(iid, target)].spec))
  {}

  // ---------------------------------------------------------------- new schedules

  ghost predicate BudgetsInRange(b: Budgets) {
    && 1 <= b.maxIterations <= 8 && 0 <= b.maxToolCalls <= 12 && 1 <= b.maxOutputTokens <= 4096
    && 1 <= b.maxDurationSeconds <= 180
  }

  ghost predicate RefsWellFormed(refs: seq<GrantRef>) {
    && |refs| <= 16 && (forall i | 0 <= i < |refs| :: refs[i].generation >= 1)
    && forall i, j | 0 <= i < |refs| && 0 <= j < |refs| && refs[i].id == refs[j].id :: i == j
  }

  ghost predicate MaySchedule(db: Db, env: Env, v: ScheduleInput, source: Option<Id>) {
    && v.expectedInterfaceRevision >= 1 && PlainText(v.prompt, 1, 16000) && C.Parse(v.cron).Some?
    && 1 <= v.maxRuns <= 100 && BudgetsInRange(v.budgets) && RefsWellFormed(v.grantRefs) && env.now < v.endAt
    && (v.workspaceId in db.workspaces ==> !db.workspaces[v.workspaceId].deleted)
    && v.modelId in env.models
    && InterfaceStands(db, v.interfaceId) && db.interfaces[v.interfaceId].revision == v.expectedInterfaceRevision
    && GrantsStand(db, env, v.workspaceId, v.modelId, v.grantRefs)
    && (source.Some? ==>
          && source.value in db.runs
          && var run := db.runs[source.value];
          && MayAct(Recorded(db, v.workspaceId), env, run) && run.schedule.None?
          && v.workspaceId == run.input.workspaceId && v.modelId == run.input.modelId
             && v.grantRefs == run.input.grantRefs)
  }

  /** A paused row that has started nothing, last in the order of rows, and an event of its run. */
  function ScheduledAs(db: Db, v: ScheduleInput, source: Option<Id>, sid: Id): Db
    requires C.Parse(v.cron).Some?
  {
    var kept := Recorded(db, v.workspaceId);
    var row := Schedule(v.workspaceId, v.interfaceId, v.prompt, v.modelId, C.Parse(v.cron).value, v.endAt, v.maxRuns,
                        v.budgets, v.grantRefs, 1, Paused, 0, None, None, None, false);
    var b := kept.(schedules := kept.schedules[sid := row], scheduleRows := kept.scheduleRows + [sid]);
    if source.Some? && source.value in db.runs
    then Told(b, source.value, db.runs[source.value], [ScheduleCreated(sid)]) else b
  }

  lemma ScheduleScopeExactly(db: Db, env: Env, v: ScheduleInput, source: Option<Id>)
    ensures ScheduleScope(db, env, v, source).Pass? <==>
            (source.Some? ==>
               && source.value in db.runs
               && var run := db.runs[source.value];
               && MayAct(db, env, run) && run.schedule.None? && v.workspaceId == run.input.workspaceId
               && v.modelId == run.input.modelId && v.grantRefs == run.input.grantRefs)
  {
    if source.Some? && source.value in db.runs { FenceExactly(db, env, db.runs[source.value]); }
    hide Fence, MayAct;
  }

  lemma RefsExactly(refs: seq<GrantRef>)
    ensures ValidRefs(refs) <==> RefsWellFormed(refs)
  {
    if ValidRefs(refs) {
      forall i, j | 0 <= i < |refs| && 0 <= j < |refs| && refs[i].id == refs[j].id ensures !(i < j) && !(j < i) {}
    }
  }

  lemma GrantsKept(db: Db, env: Env, wid: Id, model: Id, refs: seq<GrantRef>, touched: Id)
    ensures GrantsStand(Recorded(db, touched), env, wid, model, refs) <==> GrantsStand(db, env, wid, model, refs)
  {
    assert forall ref :: GrantStands(Recorded(db, touched), env, wid, model, ref) <==>
           GrantStands(db, env, wid, model, ref);
  }

  lemma CreateScheduleExactly(db: Db, env: Env, v: ScheduleInput, source: Option<Id>, sid: Id)
    ensures var r := CreateSchedule(db, env, v, source, sid);
            && (r.Ok? <==> MaySchedule(db, env, v, source))
            && (r.Ok? ==> r.value == ScheduledAs(db, v, source, sid))
  {
    RecordedIs(db, v.workspaceId);
    RefsExactly(v.grantRefs);
    var kept := Recorded(db, v.workspaceId);
    GrantsExactly(kept, env, v.workspaceId, v.modelId, v.grantRefs);
    GrantsKept(db, env, v.workspaceId, v.modelId, v.grantRefs, v.workspaceId);
    ScheduleScopeExactly(kept, env, v, source);
    hide TouchWorkspace, ScheduleScope, ValidRefs, RefsWellFormed, CheckGrants, GrantsStand, MayAct, Emit, Told,
        C.Parse;
    if CreateSchedule(db, env, v, source, sid).Ok? && source.Some? && source.value in db.runs {
      var b := ScheduledAs(db, v, None, sid);
      EmitTells(b, source.value, ScheduleCreated(sid));
    }
  }

  /** The first thing that stands against a new schedule, in the order in which the source looks. */
  ghost function WhyUnscheduled(db: Db, env: Env, v: ScheduleInput, source: Option<Id>): Code
    requires !MaySchedule(db, env, v, source)
  {
    if !(v.expectedInterfaceRevision >= 1 && PlainText(v.prompt, 1, 16000) && C.Parse(v.cron).Some?
         && 1 <= v.maxRuns <= 100
         && BudgetsInRange(v.budgets) && RefsWellFormed(v.grantRefs) && env.now < v.endAt)
    then InvalidRequest
    else if v.workspaceId in db.workspaces && db.workspaces[v.workspaceId].deleted then Tombstoned
    else if v.modelId !in env.models then ModelUnavailable
    else if v.interfaceId !in db.interfaces then NotFound
    else if db.interfaces[v.interfaceId].deleted then Tombstoned
    else if db.interfaces[v.interfaceId].revision != v.expectedInterfaceRevision then RevisionConflict
    else if !GrantsStand(db, env, v.workspaceId, v.modelId, v.grantRefs) then
      var ref := v.grantRefs[FirstFallen(db, env, v.workspaceId, v.modelId, v.grantRefs)];
      if ref.id in db.grants then GrantDenied else NotFound
    else if source.value !in db.runs then NotFound
    else if !MayAct(Recorded(db, v.workspaceId), env, db.runs[source.value]) then
      WhyNot(Recorded(db, v.workspaceId), env, db.runs[source.value])
    else UnauthorizedScope
  }

  lemma {:induction false} GrantCodesKept(db: Db, ws: map<Id, Workspace>, env: Env, wid: Id, model: Id,
                                          refs: seq<GrantRef>)
    ensures CheckGrants(db.(workspaces := ws), env, wid, model, refs) == CheckGrants(db, env, wid, model, refs)
    decreases |refs|
  {
    if refs != [] { GrantCodesKept(db, ws, env, wid, model, refs[1..]); }
  }

  lemma ScheduleScopeCode(db: Db, env: Env, v: ScheduleInput, source: Option<Id>)
    requires ScheduleScope(db, env, v, source).Fail?
    ensures source.Some?
    ensures ScheduleScope(db, env, v, source) == Fail(
      if source.value !in db.runs then NotFound
      else if !MayAct(db, env, db.runs[source.value]) then WhyNot(db, env, db.runs[source.value])
      else UnauthorizedScope)
  {
    if source.Some? && source.value in db.runs {
      FenceExactly(db, env, db.runs[source.value]);
      if !MayAct(db, env, db.runs[source.value]) { FenceCode(db, env, db.runs[source.value]); }
    }
    hide Fence, MayAct, WhyNot;
  }

  /** What the grants answer once the workspace record is there. */
  lemma GrantsVerdict(db: Db, env: Env, wid: Id, model: Id, refs: seq<GrantRef>)
    ensures CheckGrants(Recorded(db, wid), env, wid, model, refs) ==
            if GrantsStand(db, env, wid, model, refs) then Pass
            else Fail(if refs[FirstFallen(db, env, wid, model, refs)].id in db.grants then GrantDenied else NotFound)
  {
    RecordedElsewhere(db, wid);
    GrantCodesKept(db, Recorded(db, wid).workspaces, env, wid, model, refs);
    GrantsExactly(db, env, wid, model, refs);
    if !GrantsStand(db, env, wid, model, refs) { GrantsCode(db, env, wid, model, refs); }
  }

  lemma CreateScheduleCode(db: Db, env: Env, v: ScheduleInput, source: Option<Id>, sid: Id)
    requires !MaySchedule(db, env, v, source)
    ensures CreateSchedule(db, env, v, source, sid) == Err(WhyUnscheduled(db, env, v, source))
  {
    hide TouchWorkspace, ValidRefs, RefsWellFormed, CheckGrants, GrantsStand, MayAct, Emit, C.Parse, WhyNot,
        FirstFallen, Recorded;
    hide ScheduleScope, H.IsText, PlainText, BudgetsInRange, ValidBudgets;
    RecordedIs(db, v.workspaceId);
    RecordedElsewhere(db, v.workspaceId);
    SameChecks(env, v);
    GrantsVerdict(db, env, v.workspaceId, v.modelId, v.grantRefs);
    var kept := Recorded(db, v.workspaceId);
    ScheduleScopeExactly(kept, env, v, source);
    if ScheduleScope(kept, env, v, source).Fail? { ScheduleScopeCode(kept, env, v, source); }
  }

  lemma SameChecks(env: Env, v: ScheduleInput)
    ensures ValidSchedule(env, v) <==>
            && v.expectedInterfaceRevision >= 1 && PlainText(v.prompt, 1, 16000) && C.Parse(v.cron).Some?
            && 1 <= v.maxRuns <= 100 && BudgetsInRange(v.budgets) && RefsWellFormed(v.grantRefs) && env.now < v.endAt
  {
    RefsExactly(v.grantRefs);
    hide ValidRefs, RefsWellFormed, C.Parse;
  }
}
