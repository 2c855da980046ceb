/** The store as the source writes it: methods that load objects, update them and write them back,
    with loops over the stored rows, inside transactions that restore the tables on a fault. Each is
    proved against the engine's function of the same name. */
module Transactions {
  import opened Wrappers
  import opened Engine
  import opened Invariant
  import opened RunSteps
  import opened Sweeps
  import S = System
  import H = History
  import C = Cron
  import A = Authority
  import Ad = Admission
  import P = Publication
  import W = Work
  import Sc = Scheduling
  import B = Behaviours

  /** The runs a stop aims at. */
  ghost function Matching(runs: map<Id, Run>, matches: Run -> bool): set<Id> {
    set r | r in runs && matches(runs[r])
  }

  ghost function MatchingSchedules(schedules: map<Id, Schedule>, matches: Schedule -> bool): set<Id> {
    set s | s in schedules && !schedules[s].deleted && matches(schedules[s])
  }

  /** Those among the rows a loop has passed. */
  ghost function Aimed(runs: map<Id, Run>, rows: seq<Id>, matches: Run -> bool): set<Id> {
    set r | r in rows && r in runs && matches(runs[r])
  }

  lemma AimedMore(runs: map<Id, Run>, rows: seq<Id>, i: nat, matches: Run -> bool)
    requires RowsOf(rows, runs.Keys) && i < |rows|
    ensures rows[i] in runs && rows[i] !in Aimed(runs, rows[..i], matches)
    ensures Aimed(runs, rows[..i + 1], matches) ==
            if matches(runs[rows[i]]) then Aimed(runs, rows[..i], matches) + {rows[i]}
                else Aimed(runs, rows[..i], matches)
  {
    assert rows[..i + 1] == rows[..i] + [rows[i]];
  }

  lemma AimedAll(runs: map<Id, Run>, rows: seq<Id>, matches: Run -> bool)
    requires RowsOf(rows, runs.Keys)
    ensures Aimed(runs, rows[..|rows|], matches) == Matching(runs, matches)
  {
    assert rows[..|rows|] == rows;
  }

  ghost function AimedSchedules(schedules: map<Id, Schedule>, rows: seq<Id>, matches: Schedule -> bool): set<Id> {
    set s | s in rows && s in schedules && !schedules[s].deleted && matches(schedules[s])
  }

  lemma AimedSchedulesMore(schedules: map<Id, Schedule>, rows: seq<Id>, i: nat, matches: Schedule -> bool)
    requires RowsOf(rows, schedules.Keys) && i < |rows|
    ensures rows[i] in schedules && rows[i] !in AimedSchedules(schedules, rows[..i], matches)
    ensures AimedSchedules(schedules, rows[..i + 1], matches) ==
            if !schedules[rows[i]].deleted && matches(schedules[rows[i]])
            then AimedSchedules(schedules, rows[..i], matches) + {rows[i]}
            else AimedSchedules(schedules, rows[..i], matches)
  {
    assert rows[..i + 1] == rows[..i] + [rows[i]];
  }

  lemma AimedSchedulesAll(schedules: map<Id, Schedule>, rows: seq<Id>, matches: Schedule -> bool)
    requires RowsOf(rows, schedules.Keys)
    ensures AimedSchedules(schedules, rows[..|rows|], matches) == MatchingSchedules(schedules, matches)
  {
    assert rows[..|rows|] == rows;
  }

  /** A table part way through a rewriting loop: only `todo` is still to be looked at. */
  ghost function Partly<V>(rows: map<Id, V>, todo: set<Id>, change: V -> V): map<Id, V> {
    map k | k in rows :: if k in todo then rows[k] else change(rows[k])
  }

  lemma PartlyNone<V>(rows: map<Id, V>, change: V -> V)
    ensures Partly(rows, rows.Keys, change) == rows
  {}

  lemma PartlyOne<V>(rows: map<Id, V>, todo: set<Id>, k: Id, change: V -> V)
    requires k in todo && todo <= rows.Keys
    ensures var now := Partly(rows, todo, change);
            && k in now && now[k] == rows[k]
            && Partly(rows, todo - {k}, change) == if change(rows[k]) == rows[k] then now else now[k := change(rows[k])]
  {}

  lemma DropFrame(db: Db, sources: set<Id>)
    ensures DropProposals(db, sources).runs == db.runs && DropProposals(db, sources).events == db.events
  {}

  lemma FirstEvent(db: Db, rid: Id, run: Run)
    requires rid !in db.events && run.lastSeq == 0
    ensures var placed := db.(runs := db.runs[rid := run], runRows := db.runRows + [rid]);
            var half := run.(state := Queued, reason := None);
            Emit(PutRun(placed, rid, half), rid, StateChanged(Queued, None)) == AddRun(db, rid, run)
  {
    var row := run.(state := Queued, reason := None, lastSeq := 1);
    assert db.runs[rid := run][rid := run.(state := Queued, reason := None)][rid := row] == db.runs[rid := row];
    assert Log(db, rid) + [Event(1, StateChanged(Queued, None))] == [Event(1, StateChanged(Queued, None))];
  }

  /** The method's outcome is the one the engine's function answers. */
  ghost predicate Agrees<T>(spec: Engine.Done<Db>, db: Db, r: Result<T, Code>) {
    match spec
    case Ok(b) => r.Ok? && db == b
    case Err(code) => r == Err(code)
  }

  ghost predicate Replies(spec: Result<(Db, S.Reply), Code>, db: Db, r: Result<S.Reply, Code>) {
    match spec
    case Ok(done) => db == done.0 && r == Ok(done.1)
    case Err(code) => r == Err(code)
  }

  lemma WriteElsewhere(db: Db, iid: Id, title: string, spec: string, provenance: Provenance)
    ensures var b := WriteInterface(db, iid, title, spec, provenance);
            b == db.(interfaces := b.interfaces, revisions := b.revisions)
  {}

  lemma PutSame(db: Db, rid: Id)
    requires rid in db.runs
    ensures PutRun(db, rid, db.runs[rid]) == db
  {
    assert db.runs[rid := db.runs[rid]] == db.runs;
  }

  lemma EmitKeys(db: Db, rid: Id, kind: EventKind)
    requires rid in db.runs && db.events.Keys == db.runs.Keys
    ensures var b := Emit(db, rid, kind);
            && b.runs.Keys == db.runs.Keys && b.events.Keys == db.events.Keys
            && b == db.(runs := b.runs, events := b.events)
  {}

  lemma TouchElsewhere(db: Db, wid: Id, imported: seq<H.Message>, admission: bool)
    ensures var b := TouchWorkspace(db, wid, imported, admission); b.Ok? ==>
            b.value == db.(workspaces := b.value.workspaces)
  {}

  lemma RowsKnown(rows: seq<Id>, keys: set<Id>)
    requires RowsOf(rows, keys)
    ensures forall i | 0 <= i < |rows| :: rows[i] in keys
  {}

  lemma MoveKeys(db: Db, rid: Id, state: RunState, reason: Option<Reason>)
    requires rid in db.runs && db.events.Keys == db.runs.Keys
    ensures var b := Move(db, rid, state, reason);
            && b.runs.Keys == db.runs.Keys && b.events.Keys == db.events.Keys
            && b == db.(runs := b.runs, events := b.events)
  {}

  lemma RetiredElsewhere(db: Db, sids: set<Id>, reason: Reason)
    ensures PauseSchedules(A.AllRetired(db), sids, reason) == A.AllRetired(PauseSchedules(db, sids, reason))
    ensures A.AllRetired(db) == db.(grants := A.AllRetired(db).grants)
    ensures A.AllRetired(PauseSchedules(db, sids, reason)).tools == db.tools
  {
    PauseElsewhere(A.AllRetired(db), db, sids, reason);
    A.PausedSchedulesOnly(db, sids, reason);
    hide PauseSchedules;
    assert A.AllRetired(PauseSchedules(db, sids, reason)).grants == A.AllRetired(db).grants;
  }

  lemma SettledElsewhere(db: Db)
    ensures A.AllSettled(db) == db.(proposals := A.AllSettled(db).proposals)
  {}

  lemma WithdrawElsewhere(db: Db, gone: set<Id>)
    ensures WithdrawRequests(db, gone) == db.(tools := WithdrawRequests(db, gone).tools)
  {}

  lemma FoundIsARun(db: Db, env: Env, rid: Id, tid: Id)
    requires CheckRequest(db, env, rid, tid).Ok?
    ensures rid in db.runs && tid in db.tools && CheckRequest(db, env, rid, tid).value == db.tools[tid]
  {
    hide Fence;
  }

  lemma PublishKeepsRuns(db: Db, env: Env, pid: Id, expected: nat, newId: Id)
    ensures var done := Publish(db, env, pid, expected, true, newId); done.Ok? ==>
            done.value.0.runs.Keys == db.runs.Keys
  {
    hide PublishSource, WriteInterface, Publish;
    if Publish(db, env, pid, expected, true, newId).Ok? {
      P.PublishMeans(db, env, pid, expected, true, newId);
      P.MarkedElsewhere(db, pid, newId);
    }
  }

  lemma ClosedPartly(db: Db, rid: Id, close: ToolRequest -> ToolRequest)
    requires forall t: ToolRequest :: close(t) == if t.runId == rid then ClosedRequest(t) else t
    ensures Partly(db.tools, {}, close) == CloseRequests(db, rid).tools
  {}

  lemma CreateKeepsSchedules(db: Db, env: Env, value: RunInput, rid: Id, schedule: Option<(Id, Schedule)>)
    ensures var b := CreateRun(db, env, value, rid, schedule).0;
            b.schedules == db.schedules && b.occurrences == db.occurrences && b.scheduleRows == db.scheduleRows
  {
    hide Admissible, Placeable, H.RuntimeHistory, TouchWorkspace, AddRun, NewRun;
    TouchElsewhere(db, value.workspaceId, value.importHistory, schedule.None?);
    var touched := TouchWorkspace(db, value.workspaceId, value.importHistory, schedule.None?);
    if touched.Ok? { AddRunTables(touched.value, rid); }
  }

  lemma AddRunTables(db: Db, rid: Id)
    ensures forall run :: var b := AddRun(db, rid, run);
              b.schedules == db.schedules && b.occurrences == db.occurrences && b.scheduleRows == db.scheduleRows
  {}

  class Store {
    var db: Db
    var mutations: map<(S.Route, Id), S.Receipt>

    ghost predicate Valid()
      reads this
    {
      && RowsOf(db.runRows, db.runs.Keys) && RowsOf(db.scheduleRows, db.schedules.Keys)
      && db.events.Keys == db.runs.Keys
    }

    ghost function Snapshot(): S.State
      reads this
    {
      S.State(db, mutations)
    }

    constructor ()
      ensures Valid() && Snapshot() == S.START
    {
      db := EMPTY;
      mutations := map[];
    }

    // ---------------------------------------------------------------- events and states

    /** `run` is a loaded object: were it stale, its next number would be taken already. */
    method Record(rid: Id, run: Run, kind: EventKind) returns (saved: Run)
      requires rid in db.runs && run.lastSeq == db.runs[rid].lastSeq
      modifies this`db
      ensures db == Emit(PutRun(old(db), rid, run), rid, kind) && rid in db.runs && saved == db.runs[rid]
    {
      saved := run.(lastSeq := run.lastSeq + 1);
      db := db.(events := db.events[rid := Log(db, rid) + [Event(saved.lastSeq, kind)]]);
      db := db.(runs := db.runs[rid := saved]);
      assert old(db).runs[rid := run][rid := saved] == old(db).runs[rid := saved];
    }

    method SetState(rid: Id, run: Run, state: RunState, reason: Option<Reason>) returns (saved: Run)
      requires rid in db.runs && run.lastSeq == db.runs[rid].lastSeq
      modifies this`db
      ensures db == Emit(PutRun(old(db), rid, run.(state := state, reason := reason)), rid, StateChanged(state, reason))
      ensures run == old(db).runs[rid] ==> db == Move(old(db), rid, state, reason)
      ensures rid in db.runs && saved == db.runs[rid]
    {
      saved := Record(rid, run.(state := state, reason := reason), StateChanged(state, reason));
    }

    // ---------------------------------------------------------------- bulk stops

    method RewriteProposals(change: Proposal -> Proposal)
      modifies this`db
      ensures db == old(db).(proposals := Partly(old(db).proposals, {}, change))
    {
      hide Partly;
      ghost var before := db.proposals;
      var todo := db.proposals.Keys;
      PartlyNone(before, change);
      while todo != {}
        invariant todo <= before.Keys
        invariant db == old(db).(proposals := Partly(before, todo, change))
        decreases todo
      {
        var p :| p in todo;
        PartlyOne(before, todo, p, change);
        var proposal := db.proposals[p];
        if change(proposal) != proposal {
          db := db.(proposals := db.proposals[p := change(proposal)]);
        }
        todo := todo - {p};
      }
    }

    method RewriteRequests(change: ToolRequest -> ToolRequest)
      modifies this`db
      ensures db == old(db).(tools := Partly(old(db).tools, {}, change))
    {
      hide Partly;
      ghost var before := db.tools;
      var todo := db.tools.Keys;
      PartlyNone(before, change);
      while todo != {}
        invariant todo <= before.Keys
        invariant db == old(db).(tools := Partly(before, todo, change))
        decreases todo
      {
        var t :| t in todo;
        PartlyOne(before, todo, t, change);
        var request := db.tools[t];
        if change(request) != request {
          db := db.(tools := db.tools[t := change(request)]);
        }
        todo := todo - {t};
      }
    }

    method RewriteGrants(change: Grant -> Grant)
      modifies this`db
      ensures db == old(db).(grants := Partly(old(db).grants, {}, change))
    {
      hide Partly;
      ghost var before := db.grants;
      var todo := db.grants.Keys;
      PartlyNone(before, change);
      while todo != {}
        invariant todo <= before.Keys
        invariant db == old(db).(grants := Partly(before, todo, change))
        decreases todo
      {
        var g :| g in todo;
        PartlyOne(before, todo, g, change);
        var grant := db.grants[g];
        if change(grant) != grant {
          db := db.(grants := db.grants[g := change(grant)]);
        }
        todo := todo - {g};
      }
    }

    method InvalidateProposals(rid: Id)
      modifies this`db
      ensures db == DropProposals(old(db), {rid})
    {
      hide Dropped;
      var change := (p: Proposal) => Dropped(p, {rid});
      assert Partly(db.proposals, {}, change) == DropProposals(db, {rid}).proposals;
      RewriteProposals(change);
    }

    method InvalidateRun(r: Id, reason: Reason)
      requires r in db.runs && r in db.events
      modifies this`db
      ensures db == SweepRuns(old(db), {r}, Stop, reason)
    {
      hide SweepRuns, DropProposals;
      var run := db.runs[r];
      DropFrame(db, {r});
      SweepOne(db, r, Stop, reason);
      InvalidateProposals(r);
      if !Terminal(run.state) {
        var _ := SetState(r, run, if run.state.Queued? then Cancelled else Cancelling, Some(reason));
      }
    }

    method Invalidate(matches: Run -> bool, reason: Reason)
      requires Valid()
      modifies this`db
      ensures Valid()
      ensures db == SweepRuns(old(db), Matching(old(db).runs, matches), Stop, reason)
    {
      hide SweepRuns;
      var rows, snapshot := db.runRows, db.runs;
      SweepNone(db, Stop, reason);
      assert Aimed(snapshot, rows[..0], matches) == {};
      for i := 0 to |rows|
        invariant db == SweepRuns(old(db), Aimed(snapshot, rows[..i], matches), Stop, reason)
      {
        ghost var aimed := Aimed(snapshot, rows[..i], matches);
        AimedMore(snapshot, rows, i, matches);
        SweepFrame(old(db), aimed, Stop, reason);
        SweepOthers(old(db), aimed, Stop, reason, rows[i]);
        if matches(snapshot[rows[i]]) {
          InvalidateRun(rows[i], reason);
          SweepUnion(old(db), aimed, {rows[i]}, Stop, reason);
        }
      }
      AimedAll(snapshot, rows, matches);
      SweepFrame(old(db), Matching(snapshot, matches), Stop, reason);
    }

    method Pause(sid: Id, reason: Reason)
      requires Valid() && sid in db.schedules
      modifies this`db
      ensures Valid() && db == PauseSchedules(old(db), {sid}, reason)
    {
      db := db.(schedules := db.schedules[sid := PausedSchedule(db.schedules[sid], reason)]);
      assert db.schedules == PausedOnly(old(db), {sid}, reason).schedules;
      assert db.schedules.Keys == old(db).schedules.Keys;
      var belongs := (r: Run) => r.schedule.Some? && r.schedule.value.scheduleId == sid;
      Invalidate(belongs, reason);
      assert RunsOf(old(db), {sid}) == Matching(old(db).runs, belongs);
    }

    method PauseAll(matches: Schedule -> bool, reason: Reason)
      requires Valid()
      modifies this`db
      ensures Valid()
      ensures db == PauseSchedules(old(db), MatchingSchedules(old(db).schedules, matches), reason)
    {
      hide PauseSchedules;
      var rows, snapshot := db.scheduleRows, db.schedules;
      PauseNone(db, reason);
      assert AimedSchedules(snapshot, rows[..0], matches) == {};
      for i := 0 to |rows|
        invariant Valid() && db.schedules.Keys == snapshot.Keys
        invariant db == PauseSchedules(old(db), AimedSchedules(snapshot, rows[..i], matches), reason)
      {
        ghost var aimed := AimedSchedules(snapshot, rows[..i], matches);
        AimedSchedulesMore(snapshot, rows, i, matches);
        if !snapshot[rows[i]].deleted && matches(snapshot[rows[i]]) {
          ghost var before := db;
          Pause(rows[i], reason);
          PauseMore(old(db), aimed, rows[i], reason);
          A.PausedSchedulesOnly(before, {rows[i]}, reason);
        }
      }
      AimedSchedulesAll(snapshot, rows, matches);
    }

    // ---------------------------------------------------------------- authority checks

    method CheckGrants(env: Env, wid: Id, model: Id, refs: seq<GrantRef>) returns (outcome: Outcome<Code>)
      ensures outcome == Engine.CheckGrants(db, env, wid, model, refs)
    {
      hide GrantMatches;
      for i := 0 to |refs|
        invariant Engine.CheckGrants(db, env, wid, model, refs) == Engine.CheckGrants(db, env, wid, model, refs[i..])
      {
        if refs[i].id !in db.grants { return Fail(NotFound); }
        var grant := db.grants[refs[i].id];
        if !GrantMatches(grant, env.cfg, wid, model, refs[i]) || grant.expiresAt <= env.now {
          return Fail(GrantDenied);
        }
        assert refs[i..][1..] == refs[i + 1..];
      }
      return Pass;
    }

    method CheckInterfaces(iids: seq<Id>) returns (outcome: Outcome<Code>)
      ensures outcome == Engine.CheckInterfaces(db, iids)
    {
      for i := 0 to |iids|
        invariant Engine.CheckInterfaces(db, iids) == Engine.CheckInterfaces(db, iids[i..])
      {
        var found := GetInterface(db, iids[i]);
        if found.Err? { return Fail(found.error); }
        assert iids[i..][1..] == iids[i + 1..];
      }
      return Pass;
    }

    method FenceRun(env: Env, run: Run) returns (outcome: Outcome<Code>)
      ensures outcome == Fence(db, env, run)
    {
      hide Engine.CheckGrants, Engine.CheckInterfaces;
      if Terminal(run.state) || run.state.Cancelling? { return Fail(RunInactive); }
      var workspace := GetWorkspace(db, run.input.workspaceId);
      if workspace.Err? { return Fail(workspace.error); }
      if run.input.modelId !in env.models { return Fail(ModelUnavailable); }
      if run.deadline <= env.now { return Fail(DeadlineExceeded); }
      outcome := CheckGrants(env, run.input.workspaceId, run.input.modelId, run.input.grantRefs);
      if outcome.Fail? { return; }
      outcome := CheckInterfaces(run.input.interfaceIds);
      if outcome.Fail? { return; }
      if run.schedule.Some? {
        var link := run.schedule.value;
        var schedule := GetSchedule(db, link.scheduleId);
        if schedule.Err? { return Fail(schedule.error); }
        var s := schedule.value;
        return Need((s.state.Enabled? || s.state.Ended?) && s.version == link.version
                    && s.endAt > env.now, ScheduleFenced);
      }
    }

    // ---------------------------------------------------------------- workspaces and admission

    method TouchRecord(wid: Id, imported: seq<H.Message>, admission: bool) returns (r: Result<Workspace, Code>)
      modifies this`db
      ensures match TouchWorkspace(old(db), wid, imported, admission)
              case Ok(b) => db == b && wid in b.workspaces && r == Ok(b.workspaces[wid])
              case Err(code) => db == old(db) && r == Err(code)
    {
      var record := Workspace([], false, false);
      if wid in db.workspaces {
        record := db.workspaces[wid];
        if record.deleted { return Err(Tombstoned); }
      }
      if record.admitted && imported != [] { return Err(HistoryAlreadyInitialized); }
      if admission && !record.admitted {
        record := record.(history := imported, admitted := true);
      }
      db := db.(workspaces := db.workspaces[wid := record]);
      return Ok(record);
    }

    method CreateRun(env: Env, value: RunInput, rid: Id, schedule: Option<(Id, Schedule)>)
      returns (outcome: Outcome<Code>)
      requires Valid()
      modifies this`db
      ensures Valid()
      ensures (db, outcome) == Engine.CreateRun(old(db), env, value, rid, schedule)
    {
      hide ValidRunInput, Engine.CheckGrants, Engine.CheckInterfaces, H.RuntimeHistory, ConnectionsOf, Clashes;
      outcome := Admissible(db, env, value, rid);
      if outcome.Fail? { return; }
      var touched := TouchRecord(value.workspaceId, value.importHistory, schedule.None?);
      if touched.Err? { return Fail(touched.error); }
      outcome := CheckGrants(env, value.workspaceId, value.modelId, value.grantRefs);
      if outcome.Fail? { return; }
      outcome := CheckInterfaces(value.interfaceIds);
      if outcome.Fail? { return; }
      var active := ActiveRuns(db);
      if |active| >= QUEUE_LIMIT { return Fail(CapacityExceeded); }
      var connections := ConnectionsOf(db, value.grantRefs);
      if exists r | r in active :: Clashes(db.runs[r], value.workspaceId, connections) { return Fail(RunActive); }
      var link, history := None, [];
      if schedule.Some? {
        var target := GetInterface(db, schedule.value.1.interfaceId);
        if target.Err? { return Fail(target.error); }
        link := Some(ScheduleLink(schedule.value.0, schedule.value.1.version, target.value.revision));
      } else {
        var normal := H.RuntimeHistory(env.cfg.codec, touched.value.history);
        if normal.None? { return Fail(InvalidRequest); }
        history := normal.value;
      }
      var run := NewRun(db, env, value, link, history);
      AdmitRow(rid, run);
    }

    /** The new run's row and its first event. */
    method AdmitRow(rid: Id, run: Run)
      requires Valid() && rid !in db.runs && run.lastSeq == 0
      modifies this`db
      ensures Valid() && db == AddRun(old(db), rid, run)
    {
      db := db.(runs := db.runs[rid := run], runRows := db.runRows + [rid]);
      var _ := SetState(rid, run, Queued, None);
      FirstEvent(old(db), rid, run);
      Ad.RowsGrow(old(db).runRows, old(db).runs.Keys, rid);
      assert db.runs.Keys == old(db).runs.Keys + {rid};
    }

    // ---------------------------------------------------------------- proposals and interfaces

    method CheckProposalScope(env: Env, v: ProposalInput, source: Option<Id>) returns (outcome: Outcome<Code>)
      ensures outcome == ProposalScope(db, env, v, source)
    {
      hide Fence;
      if source.None? { return Pass; }
      if source.value !in db.runs { return Fail(NotFound); }
      var run := db.runs[source.value];
      outcome := FenceRun(env, run);
      if outcome.Pass? { outcome := Need(v.workspaceId == run.input.workspaceId, UnauthorizedScope); }
    }

    method Propose(env: Env, v: ProposalInput, source: Option<Id>, pid: Id) returns (r: Result<(), Code>)
      requires Valid()
      modifies this`db
      ensures Agrees(Engine.Propose(old(db), env, v, source, pid), db, r) && (r.Ok? ==> Valid())
    {
      hide ValidProposal, ProposalScope, ProposalTarget, TouchWorkspace, RowsOf;
      if !ValidProposal(v) { return Err(InvalidRequest); }
      var _ :- TouchRecord(v.workspaceId, [], false);
      TouchElsewhere(old(db), v.workspaceId, [], false);
      var outcome := CheckProposalScope(env, v, source);
      if outcome.Fail? { return Err(outcome.error); }
      outcome := ProposalTarget(db, v, source);
      if outcome.Fail? { return Err(outcome.error); }
      db := AddProposal(db, v, source, pid);
      if source.Some? && source.value in db.runs {
        assert PutRun(db, source.value, db.runs[source.value]) == db by { PutSame(db, source.value); }
        EmitKeys(db, source.value, InterfaceProposed(pid));
        var _ := Record(source.value, db.runs[source.value], InterfaceProposed(pid));
      }
      return Ok(());
    }

    method WriteInterface(iid: Id, title: string, spec: string, provenance: Provenance)
      modifies this`db
      ensures db == Engine.WriteInterface(old(db), iid, title, spec, provenance)
    {
      var revision := if iid in db.interfaces then db.interfaces[iid].revision + 1 else 1;
      var parent := if iid in db.interfaces && db.interfaces[iid].revision > 0 then Some(db.interfaces[iid].revision)
          else None;
      assert revision == RevisionOf(db, iid) + 1;
      db := db.(revisions := db.revisions[(iid, revision) := Revision(title, spec, parent)],
                interfaces := db.interfaces[iid := Interface(revision, title, spec, provenance, false)]);
    }

    method CheckPublishSource(env: Env, p: Proposal, scheduled: bool) returns (outcome: Outcome<Code>)
      ensures outcome == PublishSource(db, env, p, scheduled)
    {
      hide Fence, Engine.CheckGrants;
      if p.source.None? { return Pass; }
      var source := GetRun(db, p.source.value);
      if source.Err? { return Fail(source.error); }
      if scheduled {
        outcome := FenceRun(env, source.value);
        return;
      }
      var run := source.value;
      if !run.state.Succeeded? { return Fail(RunInactive); }
      outcome := CheckGrants(env, run.input.workspaceId, run.input.modelId, run.input.grantRefs);
      if outcome.Pass? { outcome := Need(run.schedule.None?, UnauthorizedScope); }
    }

    /** The new revision, and the proposal marked as published at it. */
    method MarkPublished(pid: Id, newId: Id) returns (iid: Id)
      requires pid in db.proposals
      modifies this`db
      ensures db == P.Marked(old(db), pid, newId)
      ensures iid == if old(db).proposals[pid].interfaceId.Some? then old(db).proposals[pid].interfaceId.value
              else newId
    {
      hide Engine.WriteInterface;
      var proposal := db.proposals[pid];
      iid := if proposal.interfaceId.Some? then proposal.interfaceId.value else newId;
      var synthetic := proposal.source.Some? && proposal.source.value in db.runs
          && db.runs[proposal.source.value].input.grantRefs != [];
      WriteInterface(iid, proposal.title, proposal.spec, Provenance(synthetic, proposal.source));
      db := db.(proposals := db.proposals[pid := proposal.(state := Published, interfaceId := Some(iid))]);
    }

    /** The writes of a publication whose checks have passed: the revision, and the event of its run. */
    method WritePublication(pid: Id, expected: nat, newId: Id) returns (iid: Id)
      requires Valid() && pid in db.proposals
      modifies this`db
      ensures Valid()
      ensures var p := old(db).proposals[pid];
              var marked := P.Marked(old(db), pid, newId);
              && iid == (if p.interfaceId.Some? then p.interfaceId.value else newId)
              && marked.runs == old(db).runs
              && db == (if p.source.Some? && p.source.value in marked.runs
                        then Emit(marked, p.source.value, InterfaceUpdated(iid, expected + 1)) else marked)
    {
      hide P.Marked, RowsOf, Emit;
      var proposal := db.proposals[pid];
      P.MarkedElsewhere(db, pid, newId);
      iid := MarkPublished(pid, newId);
      if proposal.source.Some? && proposal.source.value in db.runs {
        var source := proposal.source.value;
        assert PutRun(db, source, db.runs[source]) == db by { PutSame(db, source); }
        EmitKeys(db, source, InterfaceUpdated(iid, expected + 1));
        var _ := Record(source, db.runs[source], InterfaceUpdated(iid, expected + 1));
      }
    }

    method Publish(env: Env, pid: Id, expected: nat, scheduled: bool, newId: Id) returns (r: Result<Id, Code>)
      requires Valid()
      modifies this`db
      ensures match Engine.Publish(old(db), env, pid, expected, scheduled, newId)
              case Ok(done) => db == done.0 && r == Ok(done.1) && Valid()
              case Err(code) => db == old(db) && r == Err(code)
    {
      hide PublishSource, P.Marked, RowsOf;
      if pid !in db.proposals { return Err(NotFound); }
      var proposal := db.proposals[pid];
      if !proposal.state.Pending? { return Err(ProposalInactive); }
      if proposal.expectedRevision != expected { return Err(RevisionConflict); }
      var _ :- GetWorkspace(db, proposal.workspaceId);
      var outcome := CheckPublishSource(env, proposal, scheduled);
      if outcome.Fail? { return Err(outcome.error); }
      var revision := 0;
      if proposal.interfaceId.Some? {
        var current :- GetInterface(db, proposal.interfaceId.value);
        revision := current.revision;
      }
      if revision != expected { return Err(RevisionConflict); }
      assert Engine.Publish(db, env, pid, expected, scheduled, newId).Ok?;
      P.PublishMeans(db, env, pid, expected, scheduled, newId);
      hide Engine.Publish;
      var iid := WritePublication(pid, expected, newId);
      return Ok(iid);
    }

    // ---------------------------------------------------------------- deletions and revocation

    method DeleteWorkspace(wid: Id)
      requires Valid()
      modifies this`db
      ensures Valid() && db == Engine.DeleteWorkspace(old(db), wid)
    {
      hide SweepRuns, PauseSchedules;
      var record := if wid in db.workspaces then db.workspaces[wid] else Workspace([], false, false);
      db := db.(workspaces := db.workspaces[wid := record.(history := [], deleted := true)]);
      ghost var buried := db;
      var inside := (r: Run) => r.input.workspaceId == wid;
      var within := (s: Schedule) => s.workspaceId == wid;
      assert Matching(db.runs, inside) == RunsIn(old(db), wid);
      SweepElsewhere(buried, old(db), RunsIn(old(db), wid), WorkspaceDeleted);
      SweepFrame(old(db), RunsIn(old(db), wid), Stop, WorkspaceDeleted);
      Invalidate(inside, WorkspaceDeleted);
      assert MatchingSchedules(db.schedules, within) == SchedulesIn(old(db), wid);
      PauseElsewhere(db, SweepRuns(old(db), RunsIn(old(db), wid), Stop, WorkspaceDeleted), SchedulesIn(old(db), wid),
                     WorkspaceDeleted);
      A.PausedSchedulesOnly(SweepRuns(old(db), RunsIn(old(db), wid), Stop, WorkspaceDeleted), SchedulesIn(old(db), wid),
                            WorkspaceDeleted);
      PauseAll(within, WorkspaceDeleted);
    }

    method DeleteInterface(iid: Id, expected: nat) returns (r: Result<(), Code>)
      requires Valid()
      modifies this`db
      ensures Agrees(Engine.DeleteInterface(old(db), iid, expected), db, r) && (r.Ok? ==> Valid())
    {
      hide SweepRuns, PauseSchedules;
      var current :- CheckInterfaceRevision(db, iid, expected);
      db := db.(interfaces := db.interfaces[iid := current.(deleted := true)]);
      ghost var buried := db;
      var uses := (r: Run) => iid in r.input.interfaceIds;
      var targets := (s: Schedule) => s.interfaceId == iid;
      assert Matching(db.runs, uses) == RunsUsing(old(db), iid);
      SweepElsewhere(buried, old(db), RunsUsing(old(db), iid), InterfaceDeleted);
      SweepFrame(old(db), RunsUsing(old(db), iid), Stop, InterfaceDeleted);
      Invalidate(uses, InterfaceDeleted);
      ghost var swept := SweepRuns(old(db), RunsUsing(old(db), iid), Stop, InterfaceDeleted);
      assert MatchingSchedules(db.schedules, targets) == SchedulesTargeting(old(db), iid);
      PauseElsewhere(db, swept, SchedulesTargeting(old(db), iid), InterfaceDeleted);
      A.PausedSchedulesOnly(swept, SchedulesTargeting(old(db), iid), InterfaceDeleted);
      PauseAll(targets, InterfaceDeleted);
      var ends := (p: Proposal) => if p.interfaceId == Some(iid) then p.(state := Invalidated) else p;
      ghost var halted := PauseSchedules(swept, SchedulesTargeting(old(db), iid), InterfaceDeleted);
      assert Partly(halted.proposals, {}, ends) == BuryInterface(halted, iid).proposals;
      RewriteProposals(ends);
      return Ok(());
    }

    method CreateGrant(env: Env, v: GrantInput, gid: Id) returns (r: Result<(), Code>)
      requires Valid()
      modifies this`db
      ensures Agrees(Engine.CreateGrant(old(db), env, v, gid), db, r) && (r.Ok? ==> Valid())
    {
      hide TouchWorkspace, RowsOf;
      if v.deviceId != env.cfg.device || !v.synthetic { return Err(GrantDenied); }
      if !(0 < |v.operations| <= 2 && Distinct(v.operations)) { return Err(InvalidRequest); }
      if v.expiresAt <= env.now { return Err(InvalidRequest); }
      if v.modelId !in env.models { return Err(ModelUnavailable); }
      TouchElsewhere(db, v.workspaceId, [], false);
      var _ :- TouchRecord(v.workspaceId, [], false);
      var grant := Grant(v.workspaceId, v.connectionId, v.deviceId, (set x | x in v.operations), v.modelId, v.expiresAt,
                         v.synthetic, 1, false);
      db := db.(grants := db.grants[gid := grant]);
      return Ok(());
    }

    method RevokeGrant(gid: Id, generation: nat) returns (r: Result<(), Code>)
      requires Valid()
      modifies this`db
      ensures Agrees(Engine.RevokeGrant(old(db), gid, generation), db, r) && (r.Ok? ==> Valid())
    {
      hide SweepRuns, PauseSchedules, Uses;
      if generation < 1 { return Err(InvalidRequest); }
      if gid !in db.grants { return Err(NotFound); }
      if db.grants[gid].generation != generation { return Err(RevisionConflict); }
      db := db.(grants := db.grants[gid := Retired(db.grants[gid])]);
      var granted := (r: Run) => Uses(r.input.grantRefs, gid);
      var relying := (s: Schedule) => Uses(s.grantRefs, gid);
      assert Matching(db.runs, granted) == RunsGranted(old(db), gid);
      SweepElsewhere(db, old(db), RunsGranted(old(db), gid), GrantRevoked);
      SweepFrame(old(db), RunsGranted(old(db), gid), Stop, GrantRevoked);
      Invalidate(granted, GrantRevoked);
      ghost var swept := SweepRuns(old(db), RunsGranted(old(db), gid), Stop, GrantRevoked);
      assert MatchingSchedules(db.schedules, relying) == SchedulesGranted(old(db), gid);
      PauseElsewhere(db, swept, SchedulesGranted(old(db), gid), GrantRevoked);
      A.PausedSchedulesOnly(swept, SchedulesGranted(old(db), gid), GrantRevoked);
      PauseAll(relying, GrantRevoked);
      var withdraw := (t: ToolRequest) => if t.grantRef.id == gid then WithdrawnRequest(t) else t;
      assert Partly(db.tools, {}, withdraw) == WithdrawRequests(db, RequestsGranted(old(db), gid)).tools;
      RewriteRequests(withdraw);
      return Ok(());
    }

    method RetireGrants()
      modifies this`db
      ensures db == A.AllRetired(old(db))
    {
      var retire := (g: Grant) => if g.revoked then g else Retired(g);
      assert Partly(db.grants, {}, retire) == A.AllRetired(db).grants;
      RewriteGrants(retire);
    }

    method SettleProposals()
      modifies this`db
      ensures db == A.AllSettled(old(db))
    {
      var settle := (p: Proposal) => if p.state.Pending? then p.(state := Invalidated) else p;
      assert Partly(db.proposals, {}, settle) == A.AllSettled(db).proposals;
      RewriteProposals(settle);
    }

    method WithdrawAll()
      modifies this`db
      ensures db == WithdrawRequests(old(db), old(db).tools.Keys)
    {
      var withdraw := (t: ToolRequest) => WithdrawnRequest(t);
      assert Partly(db.tools, {}, withdraw) == WithdrawRequests(db, db.tools.Keys).tools;
      RewriteRequests(withdraw);
    }

    method FenceModelConfiguration()
      requires Valid()
      modifies this`db
      ensures Valid() && db == Engine.FenceModelConfiguration(old(db))
    {
      hide SweepRuns, PauseSchedules, Engine.FenceModelConfiguration, A.AllRetired, A.AllSettled, WithdrawRequests,
          RowsOf;
      A.FenceInStages(db);
      var reason := ModelConfigurationChanged;
      var every := (r: Run) => true;
      var enabled := (s: Schedule) => s.state.Enabled?;
      assert Matching(db.runs, every) == db.runs.Keys;
      assert MatchingSchedules(db.schedules, enabled) == A.EnabledSchedules(db);
      SweepFrame(db, db.runs.Keys, Stop, reason);
      Invalidate(every, reason);
      ghost var swept := db;
      RetiredElsewhere(swept, A.EnabledSchedules(old(db)), reason);
      RetireGrants();
      PauseAll(enabled, reason);
      SettledElsewhere(db);
      SettleProposals();
      WithdrawAll();
      WithdrawElsewhere(A.AllSettled(A.AllRetired(PauseSchedules(swept, A.EnabledSchedules(old(db)), reason))),
                        old(db).tools.Keys);
      A.PausedSchedulesOnly(swept, A.EnabledSchedules(old(db)), reason);
    }

    // ---------------------------------------------------------------- cancelling, dispatch, recovery

    method CancelRun(rid: Id)
      requires Valid()
      modifies this`db
      ensures Valid() && db == Engine.CancelRun(old(db), rid)
    {
      hide SweepRuns, DropProposals, RowsOf;
      if rid !in db.runs {
        db := db.(cancellations := db.cancellations + {rid});
        return;
      }
      var run := db.runs[rid];
      if !Terminal(run.state) {
        SweepOne(db, rid, Stop, OperatorCancelled);
        SweepFrame(db, {rid}, Stop, OperatorCancelled);
        W.DropThenMove(db, rid, if run.state.Queued? then Cancelled else Cancelling, Some(OperatorCancelled));
        var _ := SetState(rid, run, if run.state.Queued? then Cancelled else Cancelling, Some(OperatorCancelled));
        InvalidateProposals(rid);
      }
    }

    method StartNext(env: Env) returns (started: Option<Id>)
      requires Valid()
      modifies this`db
      ensures Valid() && (db, started) == Engine.StartNext(old(db), env)
    {
      hide Fence, RowsOf, Move;
      var rows := db.runRows;
      RowsKnown(rows, db.runs.Keys);
      assert rows[0..] == rows;
      for i := 0 to |rows|
        invariant Valid() && db.runs.Keys == old(db).runs.Keys
        invariant StartFrom(old(db), env, rows) == StartFrom(db, env, rows[i..])
      {
        var run := db.runs[rows[i]];
        assert rows[i..][0] == rows[i] && rows[i..][1..] == rows[i + 1..];
        if run.state.Queued? {
          var fence := FenceRun(env, run);
          if fence.Fail? {
            MoveKeys(db, rows[i], Blocked, Some(Fault(fence.error)));
            var _ := SetState(rows[i], run, Blocked, Some(Fault(fence.error)));
          } else {
            MoveKeys(db, rows[i], Running, None);
            var _ := SetState(rows[i], run, Running, None);
            return Some(rows[i]);
          }
        }
      }
      return None;
    }

    method Interrupt(r: Id)
      requires r in db.runs && r in db.events && (Working(db.runs[r].state) || db.runs[r].state.Cancelling?)
      modifies this`db
      ensures db == SweepRuns(old(db), {r}, Sweep.Interrupt, SupervisorRestarted)
    {
      hide SweepRuns, DropProposals;
      SweepOne(db, r, Sweep.Interrupt, SupervisorRestarted);
      W.DropThenMove(db, r, Interrupted, Some(SupervisorRestarted));
      var _ := SetState(r, db.runs[r], Interrupted, Some(SupervisorRestarted));
      InvalidateProposals(r);
    }

    method Recover()
      requires Valid()
      modifies this`db
      ensures Valid() && db == Engine.Recover(old(db))
    {
      hide SweepRuns;
      var rows, snapshot := db.runRows, db.runs;
      var left := (r: Run) => Working(r.state) || r.state.Cancelling?;
      SweepNone(db, Sweep.Interrupt, SupervisorRestarted);
      assert Aimed(snapshot, rows[..0], left) == {};
      for i := 0 to |rows|
        invariant db == SweepRuns(old(db), Aimed(snapshot, rows[..i], left), Sweep.Interrupt, SupervisorRestarted)
      {
        ghost var aimed := Aimed(snapshot, rows[..i], left);
        AimedMore(snapshot, rows, i, left);
        SweepFrame(old(db), aimed, Sweep.Interrupt, SupervisorRestarted);
        SweepOthers(old(db), aimed, Sweep.Interrupt, SupervisorRestarted, rows[i]);
        if left(snapshot[rows[i]]) {
          Interrupt(rows[i]);
          SweepUnion(old(db), aimed, {rows[i]}, Sweep.Interrupt, SupervisorRestarted);
        }
      }
      AimedAll(snapshot, rows, left);
      assert Matching(snapshot, left) == Unfinished(old(db));
      SweepFrame(old(db), Unfinished(old(db)), Sweep.Interrupt, SupervisorRestarted);
      var release := (t: ToolRequest) => ReleasedRequest(t);
      assert Partly(db.tools, {}, release) == Engine.Recover(old(db)).tools;
      RewriteRequests(release);
    }

    // ---------------------------------------------------------------- the work of a started run

    method Delta(env: Env, rid: Id, text: string) returns (r: Result<(), Code>)
      requires Valid()
      modifies this`db
      ensures Valid() && match Engine.Delta(old(db), env, rid, text)
              case Ok(b) => r.Ok? && db == b
              case Err(code) => r == Err(code) && db == old(db)
    {
      hide Fence, H.IsText, Emit, RowsOf;
      if !H.IsText(text, 16000, 0) { return Err(InvalidRequest); }
      var run :- GetRun(db, rid);
      var fence := FenceRun(env, run);
      if fence.Fail? { return Err(fence.error); }
      if run.lastSeq >= EVENT_LIMIT { return Err(BudgetExceeded); }
      PutSame(db, rid);
      EmitKeys(db, rid, AssistantDelta(text));
      var _ := Record(rid, run, AssistantDelta(text));
      return Ok(());
    }

    method ReserveModelRequest(env: Env, rid: Id) returns (r: Result<(), Code>)
      requires Valid()
      modifies this`db
      ensures Valid() && match Engine.ReserveModelRequest(old(db), env, rid)
              case Ok(b) => r.Ok? && db == b
              case Err(code) => r == Err(code) && db == old(db)
    {
      hide Fence;
      var run :- GetRun(db, rid);
      var fence := FenceRun(env, run);
      if fence.Fail? { return Err(fence.error); }
      if run.modelRequests >= run.input.budgets.maxIterations { return Err(BudgetExceeded); }
      var day := env.now / C.DAY;
      var used := if day in db.usage then db.usage[day] else 0;
      if used >= env.cfg.dailyLimit { return Err(DailyBudgetExceeded); }
      db := db.(usage := db.usage[day := used + 1]);
      db := PutRun(db, rid, run.(modelRequests := run.modelRequests + 1));
      assert db.runs.Keys == old(db).runs.Keys;
      return Ok(());
    }

    method CheckScheduleScope(env: Env, v: ScheduleInput, source: Option<Id>) returns (outcome: Outcome<Code>)
      ensures outcome == ScheduleScope(db, env, v, source)
    {
      hide Fence;
      if source.None? { return Pass; }
      if source.value !in db.runs { return Fail(NotFound); }
      var run := db.runs[source.value];
      outcome := FenceRun(env, run);
      if outcome.Pass? {
        outcome := Need(run.schedule.None? && v.workspaceId == run.input.workspaceId && v.modelId == run.input.modelId
                        && v.grantRefs == run.input.grantRefs, UnauthorizedScope);
      }
    }

    method AddSchedule(sid: Id, schedule: Schedule, source: Option<Id>)
      requires Valid() && sid !in db.schedules
      modifies this`db
      ensures Valid()
      ensures var added := old(db).(schedules := old(db).schedules[sid := schedule],
                                    scheduleRows := old(db).scheduleRows + [sid]);
              db == if source.Some? && source.value in added.runs then Emit(added, source.value, ScheduleCreated(sid))
                  else added
    {
      hide RowsOf;
      Ad.RowsGrow(db.scheduleRows, db.schedules.Keys, sid);
      assert db.schedules[sid := schedule].Keys == db.schedules.Keys + {sid};
      db := db.(schedules := db.schedules[sid := schedule], scheduleRows := db.scheduleRows + [sid]);
      if source.Some? && source.value in db.runs {
        PutSame(db, source.value);
        EmitKeys(db, source.value, ScheduleCreated(sid));
        var _ := Record(source.value, db.runs[source.value], ScheduleCreated(sid));
      }
    }

    method CreateSchedule(env: Env, v: ScheduleInput, source: Option<Id>, sid: Id) returns (r: Result<(), Code>)
      requires Valid() && Unused(db, sid)
      modifies this`db
      ensures Agrees(Engine.CreateSchedule(old(db), env, v, source, sid), db, r) && (r.Ok? ==> Valid())
    {
      hide ValidSchedule, TouchWorkspace, ScheduleScope, Engine.CheckGrants, RowsOf, C.Parse, Emit;
      if !ValidSchedule(env, v) { return Err(InvalidRequest); }
      var cron := Sc.ParsedCron(env, v);
      TouchElsewhere(db, v.workspaceId, [], false);
      var _ :- TouchRecord(v.workspaceId, [], false);
      if v.modelId !in env.models { return Err(ModelUnavailable); }
      var target :- GetInterface(db, v.interfaceId);
      if target.revision != v.expectedInterfaceRevision { return Err(RevisionConflict); }
      var outcome := CheckGrants(env, v.workspaceId, v.modelId, v.grantRefs);
      if outcome.Fail? { return Err(outcome.error); }
      outcome := CheckScheduleScope(env, v, source);
      if outcome.Fail? { return Err(outcome.error); }
      AddSchedule(sid, Schedule(v.workspaceId, v.interfaceId, v.prompt, v.modelId, cron, v.endAt, v.maxRuns,
                                v.budgets, v.grantRefs, 1, Paused, 0, None, None, None, false), source);
      return Ok(());
    }

    method RequestGoogle(env: Env, rid: Id, tool: GoogleTool, windowValid: bool, newId: Id)
      returns (r: Result<(), Code>)
      requires Valid() && rid in db.runs
      modifies this`db
      ensures Agrees(Engine.RequestGoogle(old(db), env, rid, tool, windowValid, newId), db, r) && (r.Ok? ==> Valid())
    {
      hide Engine.CheckGrants, GrantsOffering, RowsOf, Emit, Move;
      var run := db.runs[rid];
      if !windowValid { return Err(InvalidRequest); }
      var outcome := CheckGrants(env, run.input.workspaceId, run.input.modelId, run.input.grantRefs);
      if outcome.Fail? { return Err(outcome.error); }
      var choices := GrantsOffering(db, run.input.grantRefs, tool);
      if |choices| != 1 || choices[0].id !in db.grants { return Err(GrantDenied); }
      var grant := db.grants[choices[0].id];
      db := db.(tools := db.tools[newId := ToolRequest(
                  rid, grant.deviceId, grant.connectionId, GrantRef(choices[0].id, grant.generation), tool,
                  Least(run.deadline, grant.expiresAt), Open, None, 0, None, None)]);
      RecordAndMove(rid, ToolRequested(newId), WaitingForDevice, Some(NativeToolRequired));
      return Ok(());
    }

    /** An event and a change of state on the same loaded run. */
    method RecordAndMove(rid: Id, kind: EventKind, state: RunState, reason: Option<Reason>)
      requires Valid() && rid in db.runs
      modifies this`db
      ensures Valid() && rid in Emit(old(db), rid, kind).runs
              && db == Move(Emit(old(db), rid, kind), rid, state, reason)
    {
      hide RowsOf, Emit, Move;
      PutSame(db, rid);
      EmitKeys(db, rid, kind);
      var run := Record(rid, db.runs[rid], kind);
      MoveKeys(db, rid, state, reason);
      var _ := SetState(rid, run, state, reason);
    }

    method CallTool(env: Env, rid: Id, args: ToolArgs, newId: Id) returns (r: Result<(), Code>)
      requires Valid() && Unused(db, newId)
      modifies this`db
      ensures Agrees(Engine.CallTool(old(db), env, rid, args, newId), db, r) && (r.Ok? ==> Valid())
    {
      hide Fence, Engine.Propose, Engine.CreateSchedule, Engine.RequestGoogle, RowsOf;
      var run :- GetRun(db, rid);
      var fence := FenceRun(env, run);
      if fence.Fail? { return Err(fence.error); }
      if args.UnknownTool? { return Err(ToolDenied); }
      if run.toolCalls + 1 > run.input.budgets.maxToolCalls { return Err(BudgetExceeded); }
      db := PutRun(db, rid, run.(toolCalls := run.toolCalls + 1));
      assert db.runs.Keys == old(db).runs.Keys;
      match args {
        case ListInterfaces => return Ok(());
        case ReadInterface(iid) =>
          var _ :- GetInterface(db, iid);
          return Ok(());
        case ProposeInterface(target, expected, title, spec) =>
          r := Propose(env, ProposalInput(run.input.workspaceId, target, expected, title, spec), Some(rid), newId);
        case CreateScheduleTool(v) =>
          r := CreateSchedule(env, v.(workspaceId := run.input.workspaceId, modelId := run.input.modelId,
                                      grantRefs := run.input.grantRefs), Some(rid), newId);
        case ReadGoogle(tool, windowValid) => r := RequestGoogle(env, rid, tool, windowValid, newId);
      }
    }

    method FindRequest(env: Env, rid: Id, tid: Id) returns (r: Result<ToolRequest, Code>)
      ensures r == CheckRequest(db, env, rid, tid)
    {
      hide Fence;
      var run :- GetRun(db, rid);
      if tid !in db.tools { return Err(NotFound); }
      var request := db.tools[tid];
      if request.runId != rid || request.deviceId != env.cfg.device { return Err(UnauthorizedScope); }
      var fence := FenceRun(env, run);
      if fence.Fail? { return Err(fence.error); }
      if request.expiresAt <= env.now { return Err(Expired); }
      return Ok(request);
    }

    method ClaimRequest(env: Env, rid: Id, tid: Id, token: Id) returns (r: Result<(), Code>)
      requires Valid()
      modifies this`db
      ensures Agrees(Engine.ClaimRequest(old(db), env, rid, tid, token), db, r) && (r.Ok? ==> Valid())
    {
      hide CheckRequest;
      var request :- FindRequest(env, rid, tid);
      if !request.state.Open? && !(request.state.Claimed? && request.claimUntil <= env.now) { return Err(StaleClaim); }
      var until := Least(request.expiresAt, env.now + CLAIM_LEASE);
      db := db.(tools := db.tools[tid := request.(state := Claimed, claim := Some(token), claimUntil := until)]);
      return Ok(());
    }

    method DeliverResult(env: Env, rid: Id, tid: Id, body: ResultBody) returns (r: Result<(), Code>)
      requires Valid()
      modifies this`db
      ensures Agrees(Engine.DeliverResult(old(db), env, rid, tid, body), db, r) && (r.Ok? ==> Valid())
    {
      hide CheckRequest, RowsOf, Emit, Move;
      var request :- FindRequest(env, rid, tid);
      FoundIsARun(db, env, rid, tid);
      if request.claim != Some(body.claimToken) { return Err(StaleClaim); }
      if request.state.Completed? {
        if request.digest != Some(body) { return Err(StaleClaim); }
        return Ok(());
      }
      if !request.state.Claimed? || request.claimUntil <= env.now { return Err(StaleClaim); }
      if !body.wellFormed { return Err(InvalidRequest); }
      db := db.(tools := db.tools[tid := request.(state := Completed, result := Some(body), digest := Some(body))]);
      RecordAndMove(rid, ToolResult(tid, body.succeeded), Running, None);
      return Ok(());
    }

    // ---------------------------------------------------------------- finishing

    /** The run object is loaded again after a publication, which has written to its row. */
    method Complete(env: Env, rid: Id, result: Option<WorkerResult>, failure: Option<Code>, newId: Id)
      returns (r: Result<(), Code>)
      requires Valid() && rid in db.runs
      modifies this`db
      ensures Valid() && match Engine.Complete(old(db), env, rid, result, failure, newId)
              case Ok(b) => r.Ok? && db == b
              case Err(code) => r == Err(code) && db == old(db)
    {
      hide Fence, AcceptResult, Engine.Publish, PendingOf, Only, RowsOf, Emit, Move;
      var run := db.runs[rid];
      var fence := FenceRun(env, run);
      if fence.Fail? { return Err(fence.error); }
      if failure.Some? { return Err(failure.value); }
      var messages :- AcceptResult(env, run, result);
      W.AcceptedIsSome(env, run, result);
      if run.schedule.Some? {
        var pending := PendingOf(db, rid);
        if |pending| != 1 { return Err(InvalidRefresh); }
        PublishKeepsRuns(db, env, Only(pending), run.schedule.value.targetRevision, newId);
        var _ :- Publish(env, Only(pending), run.schedule.value.targetRevision, true, newId);
        run := db.runs[rid];
      } else {
        var ws :- GetWorkspace(db, run.input.workspaceId);
        db := db.(workspaces := db.workspaces[run.input.workspaceId := ws.(history := messages)]);
      }
      Announce(rid, run, result.value.finalResponse);
      return Ok(());
    }

    method Announce(rid: Id, run: Run, text: string)
      requires Valid() && rid in db.runs && run == db.runs[rid]
      modifies this`db
      ensures Valid() && db == W.Succeed(old(db), rid, text)
    {
      hide RowsOf, Emit, Move;
      var named := PutRun(db, rid, run.(finalMessage := Some(text)));
      assert named.runs.Keys == db.runs.Keys;
      EmitKeys(named, rid, AssistantMessage(text));
      var told := Record(rid, run.(finalMessage := Some(text)), AssistantMessage(text));
      MoveKeys(db, rid, Succeeded, None);
      var _ := SetState(rid, told, Succeeded, None);
    }

    method Finish(env: Env, rid: Id, result: Option<WorkerResult>, failure: Option<Code>, newId: Id)
      returns (r: Result<(), Code>)
      requires Valid()
      modifies this`db
      ensures Valid() && match Engine.Finish(old(db), env, rid, result, failure, newId)
              case Ok(b) => r.Ok? && db == b
              case Err(code) => r == Err(code) && db == old(db)
    {
      hide Engine.Complete, RowsOf, Emit, Move, DropProposals, CloseRequests;
      var run :- GetRun(db, rid);
      W.DropElsewhere(db, {rid});
      if Terminal(run.state) { return Ok(()); }
      if run.state.Cancelling? {
        var reason := if run.reason.Some? then run.reason else Some(Stopped);
        W.DropThenMove(db, rid, Cancelled, reason);
        MoveKeys(DropProposals(db, {rid}), rid, Cancelled, reason);
        var _ := SetState(rid, run, Cancelled, reason);
        InvalidateProposals(rid);
        return Ok(());
      }
      var done := Complete(env, rid, result, failure, newId);
      if done.Err? { FailRun(rid, done.error); }
      ghost var ended := db;
      B.CloseElsewhere(db, rid);
      var close := (t: ToolRequest) => if t.runId == rid then ClosedRequest(t) else t;
      assert Partly(db.tools, {}, close) == CloseRequests(db, rid).tools by { ClosedPartly(db, rid, close); }
      RewriteRequests(close);
      return Ok(());
    }

    method FailRun(rid: Id, code: Code)
      requires Valid() && rid in db.runs
      modifies this`db
      ensures Valid()
      ensures rid in DropProposals(old(db), {rid}).runs
      ensures var failed := Move(DropProposals(old(db), {rid}), rid, FailureState(code), Some(Fault(code)));
              rid in failed.runs && db == Emit(failed, rid, ErrorRaised(code))
    {
      hide RowsOf, Emit, Move, DropProposals;
      W.DropElsewhere(db, {rid});
      MoveKeys(DropProposals(db, {rid}), rid, FailureState(code), Some(Fault(code)));
      var run := db.runs[rid];
      InvalidateProposals(rid);
      run := SetState(rid, run, FailureState(code), Some(Fault(code)));
      PutSame(db, rid);
      EmitKeys(db, rid, ErrorRaised(code));
      var _ := Record(rid, run, ErrorRaised(code));
    }

    // ---------------------------------------------------------------- schedules

    method EnableSchedule(env: Env, sid: Id, expected: nat, consent: Consent) returns (r: Result<(), Code>)
      requires Valid()
      modifies this`db
      ensures Agrees(Engine.EnableSchedule(old(db), env, sid, expected, consent), db, r) && (r.Ok? ==> Valid())
    {
      hide Engine.CheckGrants, RowsOf, C.NextDue;
      var s :- CheckSchedule(db, sid, expected);
      if consent != Consent(s.version, s.modelId, s.grantRefs) { return Err(ConsentMismatch); }
      if !env.ready { return Err(RuntimeUnavailable); }
      var _ :- GetWorkspace(db, s.workspaceId);
      var _ :- GetInterface(db, s.interfaceId);
      var outcome := CheckGrants(env, s.workspaceId, s.modelId, s.grantRefs);
      if outcome.Fail? { return Err(outcome.error); }
      if s.modelId !in env.models { return Err(ModelUnavailable); }
      if s.runsStarted >= s.maxRuns || s.endAt <= env.now { return Err(ScheduleEnded); }
      var due := C.Next(s.cron, env.cfg.calendar, env.now, s.endAt);
      if due.None? { return Err(InvalidRequest); }
      PutSchedule(sid, s.(state := Enabled, version := s.version + 1, nextRunAt := due, reason := None));
      return Ok(());
    }

    method PutSchedule(sid: Id, s: Schedule)
      requires Valid() && sid in db.schedules
      modifies this`db
      ensures Valid() && db == old(db).(schedules := old(db).schedules[sid := s])
    {
      hide RowsOf;
      assert db.schedules[sid := s].Keys == db.schedules.Keys;
      db := db.(schedules := db.schedules[sid := s]);
    }

    method PauseSchedule(sid: Id, expected: nat) returns (r: Result<(), Code>)
      requires Valid()
      modifies this`db
      ensures Agrees(Engine.PauseSchedule(old(db), sid, expected), db, r) && (r.Ok? ==> Valid())
    {
      hide PauseSchedules;
      var _ :- CheckSchedule(db, sid, expected);
      Pause(sid, OperatorPaused);
      return Ok(());
    }

    method DeleteSchedule(sid: Id, expected: nat) returns (r: Result<(), Code>)
      requires Valid()
      modifies this`db
      ensures Agrees(Engine.DeleteSchedule(old(db), sid, expected), db, r) && (r.Ok? ==> Valid())
    {
      hide PauseSchedules, RowsOf;
      var _ :- CheckSchedule(db, sid, expected);
      A.PausedSchedulesOnly(db, {sid}, ScheduleDeleted);
      Pause(sid, ScheduleDeleted);
      PutSchedule(sid, db.schedules[sid].(deleted := true));
      return Ok(());
    }

    /** One due minute: settled as missed, admitted or refused; a refusal is caught here, so the
        workspace record its admission had made stays. */
    method Attempt(env: Env, sid: Id, due: int, newId: Id)
      requires Valid() && sid in db.schedules
      modifies this`db
      ensures Valid() && db == Engine.Attempt(old(db), env, sid, due, newId)
    {
      hide Engine.CreateRun, RowsOf, C.NextDue;
      var s := db.schedules[sid];
      var next := C.Next(s.cron, env.cfg.calendar, env.now, s.endAt);
      s := s.(nextRunAt := next);
      if env.now - due >= C.MINUTE {
        db := db.(occurrences := db.occurrences[(sid, due) := Missed]);
      } else {
        CreateKeepsSchedules(db, env, ScheduledInput(s), newId, Some((sid, s)));
        var outcome := CreateRun(env, ScheduledInput(s), newId, Some((sid, s)));
        match outcome {
          case Pass =>
            s := s.(runsStarted := s.runsStarted + 1, lastRunId := Some(newId));
            db := db.(occurrences := db.occurrences[(sid, due) := Admitted(newId)]);
          case Fail(code) =>
            db := db.(occurrences := db.occurrences[(sid, due) := Refused(code)]);
            s := s.(reason := Some(Fault(code)));
        }
      }
      PutSchedule(sid, s);
    }

    method Tick(env: Env, newIds: seq<Id>)
      requires Valid() && |newIds| == |db.scheduleRows|
      modifies this`db
      ensures Valid() && db == Engine.Tick(old(db), env, old(db).scheduleRows, newIds)
    {
      hide Engine.Attempt, RowsOf;
      var rows := db.scheduleRows;
      assert rows[0..] == rows && newIds[0..] == newIds;
      for i := 0 to |rows|
        invariant Valid() && Engine.Tick(old(db), env, rows, newIds) == Engine.Tick(db, env, rows[i..], newIds[i..])
      {
        ghost var before := db;
        var sid := rows[i];
        assert rows[i..][1..] == rows[i + 1..] && newIds[i..][1..] == newIds[i + 1..];
        if sid in db.schedules && !db.schedules[sid].deleted && db.schedules[sid].state.Enabled? {
          var s := db.schedules[sid];
          if s.endAt <= env.now || s.runsStarted >= s.maxRuns {
            PutSchedule(sid, s.(state := Ended, nextRunAt := None));
          } else if s.nextRunAt.Some? && s.nextRunAt.value <= env.now && (sid, s.nextRunAt.value) !in db.occurrences {
            Attempt(env, sid, s.nextRunAt.value, newIds[i]);
          }
        }
        assert db == TickOne(before, env, sid, newIds[i]);
      }
    }

    // ---------------------------------------------------------------- requests

    method RenameInterface(iid: Id, expected: nat, title: string) returns (r: Result<(), Code>)
      requires Valid()
      modifies this`db
      ensures Agrees(Rename(old(db), iid, expected, title), db, r) && (r.Ok? ==> Valid())
    {
      hide H.IsText, Engine.WriteInterface;
      var current :- CheckInterfaceRevision(db, iid, expected);
      if !H.IsText(title, 160, 1) { return Err(InvalidRequest); }
      WriteElsewhere(db, iid, title, current.spec, current.provenance);
      WriteInterface(iid, title, current.spec, current.provenance);
      return Ok(());
    }

    method RollbackInterface(iid: Id, expected: nat, target: nat) returns (r: Result<(), Code>)
      requires Valid()
      modifies this`db
      ensures Agrees(Rollback(old(db), iid, expected, target), db, r) && (r.Ok? ==> Valid())
    {
      hide Engine.WriteInterface;
      var current :- CheckInterfaceRevision(db, iid, expected);
      if target < 1 { return Err(InvalidRequest); }
      if (iid, target) !in db.revisions { return Err(NotFound); }
      var past := db.revisions[(iid, target)];
      WriteElsewhere(db, iid, past.title, past.spec, current.provenance);
      WriteInterface(iid, past.title, past.spec, current.provenance);
      return Ok(());
    }

    method AnswerOnRuns(env: Env, route: S.Route, key: Id, body: S.Body, newId: Id) returns (r: Result<S.Reply, Code>)
      requires Valid()
      modifies this`db
      ensures Replies(S.OnRuns(old(db), env, route, key, body, newId), db, r) && (r.Ok? ==> Valid())
    {
      hide Engine.CreateRun, Engine.CancelRun, Engine.ClaimRequest, Engine.DeliverResult, RowsOf;
      match (route, body) {
        case (Runs, RunBody(v)) =>
          var outcome := CreateRun(env, v, key, None);
          if outcome.Fail? { return Err(outcome.error); }
          if key in db.runs { return Ok(S.RunReply(db.runs[key])); } else { return Err(NotFound); }
        case (CancelAt(rid), Nothing) =>
          CancelRun(rid);
          return Ok(if rid in db.runs then S.CancelReply(true, db.runs[rid].state)
                    else S.CancelReply(false, Cancelled));
        case (ClaimAt(rid), Claiming(tid)) =>
          var _ :- ClaimRequest(env, rid, tid, newId);
          if tid in db.tools {
            return Ok(S.ClaimReply(newId, db.tools[tid].claimUntil));
          } else { return Err(NotFound); }
        case (ResultAt(rid), Delivering(tid, result)) =>
          var _ :- DeliverResult(env, rid, tid, result);
          return Ok(S.Reply.Done);
        case _ => return Err(InvalidRequest);
      }
    }

    method AnswerOnAuthority(env: Env, route: S.Route, body: S.Body, newId: Id) returns (r: Result<S.Reply, Code>)
      requires Valid()
      modifies this`db
      ensures Replies(S.OnAuthority(old(db), env, route, body, newId), db, r) && (r.Ok? ==> Valid())
    {
      hide Engine.DeleteWorkspace, Engine.CreateGrant, Engine.RevokeGrant, RowsOf;
      match (route, body) {
        case (DeleteWorkspaceAt(wid), Nothing) =>
          DeleteWorkspace(wid);
          return Ok(S.Gone(wid));
        case (Grants, GrantBody(v)) =>
          var _ :- CreateGrant(env, v, newId);
          if newId in db.grants { return Ok(S.GrantReply(newId, db.grants[newId])); } else { return Err(NotFound); }
        case (RevokeAt(gid), Expecting(generation)) =>
          var _ :- RevokeGrant(gid, generation);
          if gid in db.grants { return Ok(S.GrantReply(gid, db.grants[gid])); } else { return Err(NotFound); }
        case _ => return Err(InvalidRequest);
      }
    }

    method AnswerOnProposals(env: Env, route: S.Route, body: S.Body, newId: Id) returns (r: Result<S.Reply, Code>)
      requires Valid()
      modifies this`db
      ensures Replies(S.OnProposals(old(db), env, route, body, newId), db, r) && (r.Ok? ==> Valid())
    {
      hide Engine.Propose, Engine.Publish, RowsOf;
      match (route, body) {
        case (Propose, Proposing(v)) =>
          var _ :- Propose(env, v, None, newId);
          if newId in db.proposals {
            return Ok(S.ProposalReply(newId, db.proposals[newId]));
          } else { return Err(NotFound); }
        case (Publish, Publishing(pid, expected)) =>
          var iid :- Publish(env, pid, expected, false, newId);
          if iid in db.interfaces {
            return Ok(S.InterfaceReply(iid, db.interfaces[iid]));
          } else { return Err(NotFound); }
        case _ => return Err(InvalidRequest);
      }
    }

    method AnswerOnInterfaces(route: S.Route, body: S.Body) returns (r: Result<S.Reply, Code>)
      requires Valid()
      modifies this`db
      ensures Replies(S.OnInterfaces(old(db), route, body), db, r) && (r.Ok? ==> Valid())
    {
      hide Rename, Rollback, Engine.DeleteInterface, RowsOf;
      match (route, body) {
        case (RenameAt(iid), Renaming(expected, title)) =>
          var _ :- RenameInterface(iid, expected, title);
          if iid in db.interfaces {
            return Ok(S.InterfaceReply(iid, db.interfaces[iid]));
          } else { return Err(NotFound); }
        case (RollbackAt(iid), RollingBack(expected, target)) =>
          var _ :- RollbackInterface(iid, expected, target);
          if iid in db.interfaces {
            return Ok(S.InterfaceReply(iid, db.interfaces[iid]));
          } else { return Err(NotFound); }
        case (DeleteInterfaceAt(iid), Expecting(expected)) =>
          var _ :- DeleteInterface(iid, expected);
          return Ok(S.Gone(iid));
        case _ => return Err(InvalidRequest);
      }
    }

    method AnswerOnSchedules(env: Env, route: S.Route, body: S.Body, newId: Id) returns (r: Result<S.Reply, Code>)
      requires Valid() && Unused(db, newId)
      modifies this`db
      ensures Replies(S.OnSchedules(old(db), env, route, body, newId), db, r) && (r.Ok? ==> Valid())
    {
      hide Engine.CreateSchedule, Engine.EnableSchedule, Engine.PauseSchedule, Engine.DeleteSchedule, Unused, RowsOf;
      match (route, body) {
        case (Schedules, Scheduling(v)) =>
          var _ :- CreateSchedule(env, v, None, newId);
          if newId in db.schedules {
            return Ok(S.ScheduleReply(newId, db.schedules[newId]));
          } else { return Err(NotFound); }
        case (EnableAt(sid), Consenting(expected, consent)) =>
          var _ :- EnableSchedule(env, sid, expected, consent);
          if sid in db.schedules { return Ok(S.ScheduleReply(sid, db.schedules[sid])); } else { return Err(NotFound); }
        case (PauseAt(sid), Expecting(expected)) =>
          var _ :- PauseSchedule(sid, expected);
          if sid in db.schedules { return Ok(S.ScheduleReply(sid, db.schedules[sid])); } else { return Err(NotFound); }
        case (DeleteScheduleAt(sid), Expecting(expected)) =>
          var _ :- DeleteSchedule(sid, expected);
          return Ok(S.Gone(sid));
        case _ => return Err(InvalidRequest);
      }
    }

    method Answer(env: Env, route: S.Route, key: Id, body: S.Body, newId: Id) returns (r: Result<S.Reply, Code>)
      requires Valid() && Unused(db, newId)
      modifies this`db
      ensures Replies(S.Dispatch(old(db), env, route, key, body, newId), db, r) && (r.Ok? ==> Valid())
    {
      hide S.OnRuns, S.OnAuthority, S.OnProposals, S.OnInterfaces, S.OnSchedules, Unused, RowsOf;
      match route {
        case Runs | CancelAt(_) | ClaimAt(_) | ResultAt(_) => r := AnswerOnRuns(env, route, key, body, newId);
        case DeleteWorkspaceAt(_) | Grants | RevokeAt(_) => r := AnswerOnAuthority(env, route, body, newId);
        case Propose | Publish => r := AnswerOnProposals(env, route, body, newId);
        case RenameAt(_) | RollbackAt(_) | DeleteInterfaceAt(_) => r := AnswerOnInterfaces(route, body);
        case Schedules | EnableAt(_) | PauseAt(_) | DeleteScheduleAt(_) =>
          r := AnswerOnSchedules(env, route, body, newId);
      }
    }

    /** One transaction: a receipt answers a repeated request, and a fault restores the tables. */
    method Post(env: Env, route: S.Route, key: Id, body: S.Body, newId: Id) returns (r: Result<S.Reply, Code>)
      requires Valid() && Unused(db, newId)
      modifies this
      ensures Valid() && (Snapshot(), r) == S.Post(old(Snapshot()), env, route, key, body, newId)
    {
      hide S.Dispatch, Unused, RowsOf;
      if (route, key) in mutations {
        var receipt := mutations[(route, key)];
        return if receipt.body == body then Ok(receipt.reply) else Err(IdempotencyConflict);
      }
      var saved := db;
      r := Answer(env, route, key, body, newId);
      if r.Err? {
        db := saved;
      } else {
        mutations := mutations[(route, key) := S.Receipt(body, r.value)];
      }
    }

    /** Whatever happens next happens as the system's step says, and keeps the joint invariant. */
    method Serve(env: Env, action: S.Action)
      requires Valid() && Inv(db, env.cfg, env.now) && S.Permitted(Snapshot(), action)
      modifies this
      ensures Snapshot() == S.Act(old(Snapshot()), env, action)
      ensures Valid() && Inv(db, env.cfg, env.now) && Advances(old(db), db, env.now)
    {
      hide Inv, Advances, S.Post, Engine.Delta, Engine.ReserveModelRequest, Engine.CallTool, Engine.Finish,
          Engine.StartNext;
      hide Engine.Tick, Engine.Recover, Engine.FenceModelConfiguration, Unused, RowsOf;
      S.StepKeepsInv(Snapshot(), env, action);
      match action {
        case Request(route, key, body, newId) => var _ := Post(env, route, key, body, newId);
        case Start => var _ := StartNext(env);
        case Say(rid, text) => var _ := Delta(env, rid, text);
        case Reserve(rid) => var _ := ReserveModelRequest(env, rid);
        case Call(rid, args, newId) =>
          var saved := db;
          var r := CallTool(env, rid, args, newId);
          if r.Err? { db := saved; }
        case End(rid, result, failure, newId) => var _ := Finish(env, rid, result, failure, newId);
        case Restart => Recover();
        case Pass(newIds) => Tick(env, newIds);
        case NewModels => FenceModelConfiguration();
      }
    }
  }
}
