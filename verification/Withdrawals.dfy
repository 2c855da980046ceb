/** Grants given, and every way authority is withdrawn: what each asks for and exactly what it writes. */
module Withdrawals {
  import opened Wrappers
  import opened Engine
  import opened Verdicts
  import opened Writes
  import opened Endings
  import A = Authority

  /** First the runs are stopped, then the schedules are paused with the runs they started. */
  ghost predicate HaltsExactly(a: Db, b: Db, runs: set<Id>, sids: set<Id>, reason: Reason) {
    exists m :: MovesExactly(a, m, runs, StopOf, reason) && PausesExactly(m, b, sids, reason)
  }

  lemma HaltIsExact(db: Db, runs: set<Id>, sids: set<Id>, reason: Reason)
    ensures HaltsExactly(db, PauseSchedules(SweepRuns(db, runs, Stop, reason), sids, reason), runs, sids, reason)
  {
    hide SweepRuns, PauseSchedules, MovesExactly, PausesExactly;
    var m := SweepRuns(db, runs, Stop, reason);
    SweepIsExact(db, runs, Stop, reason);
    PauseIsExact(m, sids, reason);
    assert MovesExactly(db, m, runs, StopOf, reason);
  }

  // ---------------------------------------------------------------- grants

  lemma CreateGrantExactly(db: Db, env: Env, v: GrantInput, gid: Id)
    ensures var r := CreateGrant(db, env, v, gid);
            && (r.Ok? <==>
                  && v.deviceId == env.cfg.device && v.synthetic
                  && 1 <= |v.operations| <= 2 && (|v.operations| == 2 ==> v.operations[0] != v.operations[1])
                  && env.now < v.expiresAt && v.modelId in env.models
                  && (v.workspaceId in db.workspaces ==> !db.workspaces[v.workspaceId].deleted))
            && (r.Ok? ==>
                  var kept := Recorded(db, v.workspaceId);
                  r.value == kept.(grants := kept.grants[gid :=
                    Grant(v.workspaceId, v.connectionId, v.deviceId, (set x | x in v.operations), v.modelId,
                          v.expiresAt, true, 1, false)]))
  {
    RecordedIs(db, v.workspaceId);
    hide TouchWorkspace, Recorded;
    if |v.operations| == 2 { TwoDistinct(v.operations); }
    if |v.operations| == 1 { OneDistinct(v.operations); }
  }

  lemma TwoDistinct(s: seq<GoogleTool>)
    requires |s| == 2
    ensures Distinct(s) <==> s[0] != s[1]
  {}

  lemma OneDistinct(s: seq<GoogleTool>)
    requires |s| == 1
    ensures Distinct(s)
  {}

  ghost predicate RefersTo(refs: seq<GrantRef>, gid: Id) { exists i | 0 <= i < |refs| :: refs[i].id == gid }

  /** The requests of `tids` hold nothing any more; no other changes. */
  ghost predicate Withdrawn(a: map<Id, ToolRequest>, b: map<Id, ToolRequest>, tids: set<Id>) {
    && b.Keys == a.Keys
    && forall t | t in a ::
         b[t] == if t in tids then a[t].(result := None, claim := None, state := RequestState.Withdrawn) else a[t]
  }

  lemma RevokeExactly(db: Db, gid: Id, generation: nat)
    ensures var r := RevokeGrant(db, gid, generation);
            && (r.Ok? <==> generation >= 1 && gid in db.grants && db.grants[gid].generation == generation)
            && (r.Ok? ==>
                  var b := r.value;
                  && HaltsExactly(db, b.(grants := db.grants, tools := db.tools),
                                  (set r | r in db.runs && RefersTo(db.runs[r].input.grantRefs, gid)),
                                  (set s | s in db.schedules && !db.schedules[s].deleted
                                   && RefersTo(db.schedules[s].grantRefs, gid)),
                                  GrantRevoked)
                  && b.grants == db.grants[gid := db.grants[gid].(revoked := true, generation := generation + 1)]
                  && Withdrawn(db.tools, b.tools, (set t | t in db.tools && db.tools[t].grantRef.id == gid)))
  {
    hide SweepRuns, PauseSchedules, HaltsExactly;
    var runs := set r | r in db.runs && RefersTo(db.runs[r].input.grantRefs, gid);
    var sids := set s | s in db.schedules && !db.schedules[s].deleted && RefersTo(db.schedules[s].grantRefs, gid);
    UsesIs(gid);
    hide Uses, RefersTo;
    assert runs == RunsGranted(db, gid) && sids == SchedulesGranted(db, gid);
    HaltIsExact(db, runs, sids, GrantRevoked);
    HaltElsewhere(db, runs, sids, GrantRevoked);
  }

  lemma UsesIs(gid: Id)
    ensures forall refs :: Uses(refs, gid) <==> RefersTo(refs, gid)
  {}

  /** Stopping and pausing leave the other tables as they are. */
  lemma HaltElsewhere(db: Db, runs: set<Id>, sids: set<Id>, reason: Reason)
    ensures var b := PauseSchedules(SweepRuns(db, runs, Stop, reason), sids, reason);
            b == db.(runs := b.runs, events := b.events, proposals := b.proposals, schedules := b.schedules)
  {
    SweepIsExact(db, runs, Stop, reason);
    PauseIsExact(SweepRuns(db, runs, Stop, reason), sids, reason);
    hide SweepRuns, PauseSchedules, RowsMove, LogsMove, DropsExactly, RowsPause;
  }

  // ---------------------------------------------------------------- workspaces and interfaces

  lemma DeleteWorkspaceExactly(db: Db, wid: Id)
    ensures var b := DeleteWorkspace(db, wid);
            && HaltsExactly(db, b.(workspaces := db.workspaces),
                            (set r | r in db.runs && db.runs[r].input.workspaceId == wid),
                            (set s | s in db.schedules && !db.schedules[s].deleted
                             && db.schedules[s].workspaceId == wid),
                            WorkspaceDeleted)
            && b.workspaces ==
               db.workspaces[wid := Workspace([], wid in db.workspaces && db.workspaces[wid].admitted, true)]
  {
    hide SweepRuns, PauseSchedules, HaltsExactly;
    HaltIsExact(db, RunsIn(db, wid), SchedulesIn(db, wid), WorkspaceDeleted);
    HaltElsewhere(db, RunsIn(db, wid), SchedulesIn(db, wid), WorkspaceDeleted);
    SameSchedulesIn(db, wid);
  }

  lemma SameSchedulesIn(db: Db, wid: Id)
    ensures SchedulesIn(SweepRuns(db, RunsIn(db, wid), Stop, WorkspaceDeleted), wid) == SchedulesIn(db, wid)
  {
    SweepIsExact(db, RunsIn(db, wid), Stop, WorkspaceDeleted);
    hide SweepRuns, RowsMove, LogsMove, DropsExactly;
  }

  lemma DeleteInterfaceExactly(db: Db, iid: Id, expected: nat)
    ensures var r := DeleteInterface(db, iid, expected);
            && (r.Ok? <==> InterfaceStands(db, iid) && expected >= 1 && db.interfaces[iid].revision == expected)
            && (r.Ok? ==>
                  exists mid ::
                    && HaltsExactly(db, mid, (set r | r in db.runs && iid in db.runs[r].input.interfaceIds),
                                    (set s | s in db.schedules && !db.schedules[s].deleted
                                     && db.schedules[s].interfaceId == iid),
                                    InterfaceDeleted)
                    && r.value == mid.(interfaces := db.interfaces[iid := db.interfaces[iid].(deleted := true)],
                                       proposals := r.value.proposals)
                    && Invalidates(mid.proposals, r.value.proposals, iid))
  {
    hide SweepRuns, PauseSchedules, HaltsExactly;
    HaltIsExact(db, RunsUsing(db, iid), SchedulesTargeting(db, iid), InterfaceDeleted);
    HaltElsewhere(db, RunsUsing(db, iid), SchedulesTargeting(db, iid), InterfaceDeleted);
    if DeleteInterface(db, iid, expected).Ok? {
      var mid := PauseSchedules(SweepRuns(db, RunsUsing(db, iid), Stop, InterfaceDeleted), SchedulesTargeting(db, iid),
                                InterfaceDeleted);
      assert Invalidates(mid.proposals, DeleteInterface(db, iid, expected).value.proposals, iid);
    }
  }

  /** Every proposal for the interface, a published one included, ends invalidated. */
  ghost predicate Invalidates(a: map<Id, Proposal>, b: map<Id, Proposal>, iid: Id) {
    && b.Keys == a.Keys
    && forall p | p in a :: b[p] == if a[p].interfaceId == Some(iid) then a[p].(state := Invalidated) else a[p]
  }

  // ---------------------------------------------------------------- schedules

  ghost predicate ScheduleAt(db: Db, sid: Id, expected: nat) {
    sid in db.schedules && !db.schedules[sid].deleted && expected >= 1 && db.schedules[sid].version == expected
  }

  lemma PauseScheduleExactly(db: Db, sid: Id, expected: nat)
    ensures var r := PauseSchedule(db, sid, expected);
            && (r.Ok? <==> ScheduleAt(db, sid, expected))
            && (r.Ok? ==> PausesExactly(db, r.value, {sid}, OperatorPaused))
  {
    PauseIsExact(db, {sid}, OperatorPaused);
    hide PauseSchedules, PausesExactly;
  }

  lemma DeleteScheduleExactly(db: Db, sid: Id, expected: nat)
    ensures var r := DeleteSchedule(db, sid, expected);
            && (r.Ok? <==> ScheduleAt(db, sid, expected))
            && (r.Ok? ==>
                  exists mid ::
                    && PausesExactly(db, mid, {sid}, ScheduleDeleted) && sid in mid.schedules
                    && r.value == mid.(schedules := mid.schedules[sid := mid.schedules[sid].(deleted := true)]))
  {
    PauseIsExact(db, {sid}, ScheduleDeleted);
    assert sid in db.schedules ==> sid in PauseSchedules(db, {sid}, ScheduleDeleted).schedules by {
      hide PauseSchedules, MovesExactly;
    }
    hide PauseSchedules, PausesExactly;
  }

  // ---------------------------------------------------------------- a change of model configuration

  ghost predicate AllRevoked(a: map<Id, Grant>, b: map<Id, Grant>) {
    && b.Keys == a.Keys
    && forall g | g in a ::
       b[g] == if a[g].revoked then a[g] else a[g].(revoked := true, generation := a[g].generation + 1)
  }

  ghost predicate AllSettled(a: map<Id, Proposal>, b: map<Id, Proposal>) {
    b.Keys == a.Keys && forall p | p in a :: b[p] == if a[p].state == Pending then a[p].(state := Invalidated) else a[p]
  }

  lemma FenceModelExactly(db: Db)
    ensures var b := FenceModelConfiguration(db);
            exists mid ::
              && HaltsExactly(db, mid, db.runs.Keys,
                              (set s | s in db.schedules && !db.schedules[s].deleted
                               && db.schedules[s].state == Enabled),
                              ModelConfigurationChanged)
              && b == mid.(grants := b.grants, proposals := b.proposals, tools := b.tools)
              && AllRevoked(db.grants, b.grants) && AllSettled(mid.proposals, b.proposals)
              && Withdrawn(db.tools, b.tools, db.tools.Keys)
  {
    hide SweepRuns, PauseSchedules, HaltsExactly, FenceModelConfiguration;
    var sids := set s | s in db.schedules && !db.schedules[s].deleted && db.schedules[s].state == Enabled;
    assert sids == A.EnabledSchedules(db);
    HaltIsExact(db, db.runs.Keys, sids, ModelConfigurationChanged);
    HaltElsewhere(db, db.runs.Keys, sids, ModelConfigurationChanged);
    A.FenceInStages(db);
    var mid := PauseSchedules(SweepRuns(db, db.runs.Keys, Stop, ModelConfigurationChanged), sids,
                              ModelConfigurationChanged);
    var b := FenceModelConfiguration(db);
    assert HaltsExactly(db, mid, db.runs.Keys, sids, ModelConfigurationChanged);
    assert AllRevoked(db.grants, b.grants);
    assert AllSettled(mid.proposals, b.proposals);
    assert Withdrawn(db.tools, b.tools, db.tools.Keys);
  }
}
